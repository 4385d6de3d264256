/** Taking a snapshot: which paths it covers, what it stores, and what the result can be relied on for. */
module Capture {
  import opened Wrappers
  import opened Paths
  import opened Records
  import opened Manifest
  import opened Sorting
  import opened Store
  import opened Layout

  datatype Plan = Plan(steps: seq<PlannedStep>, requiresReboot: bool)

  // ----- the targets of a plan -----

  /** Every touch of every step but the snapshot step, in plan order. */
  function TouchesOf(steps: seq<PlannedStep>): seq<Path> {
    if steps == [] then []
    else
      var last := steps[|steps| - 1];
      TouchesOf(steps[..|steps| - 1]) + (if last.kind == Snapshot then [] else last.touches)
  }

  /** First occurrences, in order. */
  function Unique<T(==)>(s: seq<T>): seq<T> {
    if s == [] then []
    else
      var before := Unique(s[..|s| - 1]);
      if s[|s| - 1] in before then before else before + [s[|s| - 1]]
  }

  function Targets(steps: seq<PlannedStep>): seq<Path> {
    Unique(TouchesOf(steps))
  }

  method CollectTargets(steps: seq<PlannedStep>) returns (seen: seq<Path>)
    ensures seen == Targets(steps)
  {
    hide Unique;
    seen := [];
    NothingUnique();
    for i := 0 to |steps|
      invariant seen == Unique(TouchesOf(steps[..i]))
    {
      assert steps[..i + 1][..i] == steps[..i];
      if steps[i].kind == Snapshot {
        assert TouchesOf(steps[..i]) + [] == TouchesOf(steps[..i]);
        continue;
      }
      seen := PushUnique(seen, TouchesOf(steps[..i]), steps[i].touches);
    }
    assert steps[..|steps|] == steps;
  }

  lemma NothingUnique()
    ensures Unique<Path>([]) == []
  {
  }

  /** Pushes the touches that have not been seen yet. */
  method PushUnique(seen: seq<Path>, ghost before: seq<Path>, touches: seq<Path>) returns (more: seq<Path>)
    requires seen == Unique(before)
    ensures more == Unique(before + touches)
  {
    more := seen;
    assert before + touches[..0] == before;
    for j := 0 to |touches|
      invariant more == Unique(before + touches[..j])
    {
      ghost var upTo := before + touches[..j + 1];
      assert upTo[..|upTo| - 1] == before + touches[..j];
      if touches[j] !in more {
        more := more + [touches[j]];
      }
    }
    assert touches[..|touches|] == touches;
  }

  lemma {:induction false} UniqueMembers<T(!new)>(s: seq<T>)
    ensures Distinct(Unique(s))
    ensures forall x :: x in Unique(s) <==> x in s
  {
    if s != [] {
      var front := s[..|s| - 1];
      UniqueMembers(front);
      assert s == front + [s[|s| - 1]];
    }
  }

  /** First occurrences stay in the order in which they occur. */
  lemma {:induction false} UniqueOrder<T(!new)>(s: seq<T>, i: nat, j: nat) returns (a: nat, b: nat)
    requires i < j < |Unique(s)|
    ensures a < b < |s| && s[a] == Unique(s)[i] && s[b] == Unique(s)[j]
    ensures s[a] !in s[..a] && s[b] !in s[..b]
  {
    var n := |s| - 1;
    UniqueMembers(s[..n]);
    if j < |Unique(s[..n])| {
      a, b := UniqueOrder(s[..n], i, j);
      assert s[..n][..a] == s[..a] && s[..n][..b] == s[..b];
    } else {
      assert Unique(s)[i] in s[..n];
      a := FirstIn(s[..n], Unique(s)[i]);
      b := n;
      assert s[..n][..a] == s[..a];
    }
  }

  lemma FirstIn<T(!new)>(s: seq<T>, x: T) returns (a: nat)
    requires x in s
    ensures a < |s| && s[a] == x && x !in s[..a]
  {
    a := 0;
    while s[a] != x
      invariant a < |s| && x !in s[..a] && x in s[a..]
      decreases |s| - a
    {
      a := a + 1;
    }
  }

  lemma TouchesMember(steps: seq<PlannedStep>, i: nat, t: Path)
    requires i < |steps| && steps[i].kind != Snapshot && t in steps[i].touches
    ensures t in TouchesOf(steps)
  {
    if i < |steps| - 1 {
      TouchesMember(steps[..|steps| - 1], i, t);
    }
  }

  /** Every touch of every step other than the snapshot step is a target. */
  lemma TouchIsTarget(steps: seq<PlannedStep>, i: nat, t: Path)
    requires i < |steps| && steps[i].kind != Snapshot && t in steps[i].touches
    ensures t in Targets(steps)
  {
    TouchesMember(steps, i, t);
    UniqueMembers(TouchesOf(steps));
  }

  function FirstToucher(steps: seq<PlannedStep>, target: Path): (i: nat)
    ensures i <= |steps|
    ensures i < |steps| ==> target in steps[i].touches
    ensures forall j | 0 <= j < i :: target !in steps[j].touches
  {
    if steps == [] then 0
    else if target in steps[0].touches then 0
    else 1 + FirstToucher(steps[1..], target)
  }

  /** The step a path belongs to is the first that touches it. */
  function ProducedBy(steps: seq<PlannedStep>, target: Path): StepKind {
    var i := FirstToucher(steps, target);
    if i < |steps| then steps[i].kind else Verify
  }

  function RestoreActionsOf(step: PlannedStep, host: SystemProfile): seq<RestoreAction> {
    match step.kind
    case BootloaderWrite =>
      if host.bootloader.updateCommand.Some? then
        [RegenerateBootloader(host.bootloader.updateCommand.value)]
      else
        []
    case InitramfsWrite =>
      var command := RebuildCommand(host.initramfs);
      if command == "" then [] else [RebuildInitramfs(command)]
    case VfioConfig => [ReloadKernelModules("vfio_pci")]
    case _ => []
  }

  function RebuildCommand(system: InitramfsSystem): string {
    match system
    case Mkinitcpio => "mkinitcpio -P"
    case Dracut => "dracut --force"
    case UpdateInitramfs => "update-initramfs -u -k all"
    case UnknownInitramfs => ""
  }

  function RestoreActions(steps: seq<PlannedStep>, host: SystemProfile): seq<RestoreAction> {
    if steps == [] then []
    else RestoreActions(steps[..|steps| - 1], host) + RestoreActionsOf(steps[|steps| - 1], host)
  }

  /** What the user has to do again once a step of this kind has been undone on this host. */
  predicate Follows(action: RestoreAction, kind: StepKind, host: SystemProfile) {
    match action
    case RegenerateBootloader(command) => kind == BootloaderWrite && host.bootloader.updateCommand == Some(command)
    case RebuildInitramfs(command) =>
      kind == InitramfsWrite
      && ((host.initramfs == Mkinitcpio && command == "mkinitcpio -P")
          || (host.initramfs == Dracut && command == "dracut --force")
          || (host.initramfs == UpdateInitramfs && command == "update-initramfs -u -k all"))
    case ReloadKernelModules(name) => kind == VfioConfig && name == "vfio_pci"
    case UndefineLibvirtDomain(_) => false
    case RemoveHookScripts(_) => false
    case RecommendReboot => false
  }

  /** Each action follows from the step named for it, in plan order, and each action that follows is there. */
  ghost predicate Derived(actions: seq<RestoreAction>, steps: seq<PlannedStep>, host: SystemProfile, from: seq<nat>) {
    && |from| == |actions|
    && (forall k | 0 <= k < |from| :: from[k] < |steps| && Follows(actions[k], steps[from[k]].kind, host))
    && (forall j, k | 0 <= j < k < |from| :: from[j] < from[k])
    && (forall i, a | 0 <= i < |steps| && Follows(a, steps[i].kind, host) :: Stands(actions, from, i, a))
  }

  /** The action is among those listed, and step `i` among those they follow from. */
  ghost predicate Stands(actions: seq<RestoreAction>, from: seq<nat>, i: int, a: RestoreAction) {
    a in actions && exists k :: 0 <= k < |from| && from[k] == i
  }

  lemma OneStepDerives(step: PlannedStep, host: SystemProfile)
    ensures var own := RestoreActionsOf(step, host);
      |own| <= 1 && forall a :: a in own <==> Follows(a, step.kind, host)
  {
  }

  lemma DerivedMore(
    actions: seq<RestoreAction>, steps: seq<PlannedStep>, host: SystemProfile, from: seq<nat>, step: PlannedStep)
    returns (more: seq<nat>)
    requires Derived(actions, steps, host, from)
    ensures Derived(actions + RestoreActionsOf(step, host), steps + [step], host, more)
  {
    hide Follows, RestoreActionsOf;
    var own := RestoreActionsOf(step, host);
    OneStepDerives(step, host);
    if own == [] {
      more := from;
      assert actions + own == actions;
      DerivedNone(actions, steps, host, from, step);
    } else {
      more := from + [|steps|];
      assert own == [own[0]] && own[0] in own;
      DerivedOne(actions, steps, host, from, step, own[0]);
    }
  }

  lemma DerivedHas(
    actions: seq<RestoreAction>, steps: seq<PlannedStep>, host: SystemProfile, from: seq<nat>, i: int,
    a: RestoreAction)
    requires Derived(actions, steps, host, from) && 0 <= i < |steps| && Follows(a, steps[i].kind, host)
    ensures Stands(actions, from, i, a)
  {
  }

  lemma DerivedNone(
    actions: seq<RestoreAction>, steps: seq<PlannedStep>, host: SystemProfile, from: seq<nat>, step: PlannedStep)
    requires Derived(actions, steps, host, from) && forall a :: !Follows(a, step.kind, host)
    ensures Derived(actions, steps + [step], host, from)
  {
    hide Follows, Stands;
    var all := steps + [step];
    forall k | 0 <= k < |from| ensures from[k] < |all| && Follows(actions[k], all[from[k]].kind, host) {
      assert all[from[k]] == steps[from[k]];
    }
    forall i, a | 0 <= i < |all| && Follows(a, all[i].kind, host) ensures Stands(actions, from, i, a) {
      assert i < |steps| by {
        assert !Follows(a, step.kind, host);
      }
      DerivedHas(actions, steps, host, from, i, a);
    }
  }

  lemma StandsMore(
    actions: seq<RestoreAction>, from: seq<nat>, i: int, a: RestoreAction, own: RestoreAction, n: nat)
    requires Stands(actions, from, i, a)
    ensures Stands(actions + [own], from + [n], i, a)
  {
    var k :| 0 <= k < |from| && from[k] == i;
    assert (from + [n])[k] == i;
  }

  lemma StandsLast(actions: seq<RestoreAction>, from: seq<nat>, own: RestoreAction, n: nat)
    ensures Stands(actions + [own], from + [n], n, own)
  {
    assert (from + [n])[|from|] == n && (actions + [own])[|actions|] == own;
  }

  lemma DerivedOne(
    actions: seq<RestoreAction>, steps: seq<PlannedStep>, host: SystemProfile, from: seq<nat>, step: PlannedStep,
    own: RestoreAction)
    requires Derived(actions, steps, host, from) && forall a :: Follows(a, step.kind, host) <==> a == own
    ensures Derived(actions + [own], steps + [step], host, from + [|steps|])
  {
    hide Follows, Stands;
    var all, acts, more := steps + [step], actions + [own], from + [|steps|];
    assert forall k | 0 <= k < |from| :: more[k] == from[k] < |steps|;
    forall j, k | 0 <= j < k < |more| ensures more[j] < more[k] {
      assert k < |from| ==> from[j] < from[k];
    }
    forall i, a | 0 <= i < |all| && Follows(a, all[i].kind, host) ensures Stands(acts, more, i, a) {
      if i < |steps| {
        DerivedHas(actions, steps, host, from, i, a);
        StandsMore(actions, from, i, a, own, |steps|);
      } else {
        StandsLast(actions, from, own, |steps|);
      }
    }
    forall k | 0 <= k < |more| ensures more[k] < |all| && Follows(acts[k], all[more[k]].kind, host) {
      if k < |from| {
        assert all[from[k]] == steps[from[k]];
      }
    }
  }

  /** The actions of a plan's steps. */
  lemma RestoreActionsFollow(steps: seq<PlannedStep>, host: SystemProfile) returns (from: seq<nat>)
    ensures Derived(RestoreActions(steps, host), steps, host, from)
  {
    if steps == [] {
      from := [];
    } else {
      var n := |steps| - 1;
      var before := RestoreActionsFollow(steps[..n], host);
      from := DerivedMore(RestoreActions(steps[..n], host), steps[..n], host, before, steps[n]);
      assert steps[..n] + [steps[n]] == steps;
    }
  }

  /** `from` names the step of each action but the last, which is the hint to reboot if the plan needs it. */
  method DeriveRestoreActions(plan: Plan, host: SystemProfile)
    returns (actions: seq<RestoreAction>, ghost from: seq<nat>)
    ensures actions == RestoreActions(plan.steps, host) + (if plan.requiresReboot then [RecommendReboot] else [])
    ensures var n := |actions| - if plan.requiresReboot then 1 else 0;
      && n >= 0 && Derived(actions[..n], plan.steps, host, from)
      && actions[n..] == if plan.requiresReboot then [RecommendReboot] else []
  {
    actions := [];
    for i := 0 to |plan.steps|
      invariant actions == RestoreActions(plan.steps[..i], host)
    {
      assert plan.steps[..i + 1][..i] == plan.steps[..i];
      actions := actions + RestoreActionsOf(plan.steps[i], host);
    }
    assert plan.steps[..|plan.steps|] == plan.steps;
    from := RestoreActionsFollow(plan.steps, host);
    if plan.requiresReboot {
      actions := actions + [RecommendReboot];
    }
  }

  // ----- what a capture stores -----

  /** `seen` is what the capture read: the content of each target it found as a file. */
  function CaptureEntry(
    seen: map<Path, Contents>, sha: Contents -> Digest, steps: seq<PlannedStep>, target: Path): SnapshotEntry
  {
    var existed := target in seen;
    SnapshotEntry(
      target,
      BackupRelative(target),
      if existed then sha(seen[target]) else "",
      None,
      existed,
      ProducedBy(steps, target))
  }

  function CaptureEntries(
    seen: map<Path, Contents>, sha: Contents -> Digest, steps: seq<PlannedStep>, targets: seq<Path>): seq<SnapshotEntry>
  {
    seq(|targets|, i requires 0 <= i < |targets| => CaptureEntry(seen, sha, steps, targets[i]))
  }

  function CaptureManifest(
    seen: map<Path, Contents>, sha: Contents -> Digest, plan: Plan, host: SystemProfile, id: string): SnapshotManifest
  {
    SnapshotManifest(
      id,
      CaptureEntries(seen, sha, plan.steps, Targets(plan.steps)),
      RestoreActions(plan.steps, host) + (if plan.requiresReboot then [RecommendReboot] else []))
  }

  /** Step `j` is the first of the plan to touch `p`. */
  ghost predicate TouchedFirstBy(steps: seq<PlannedStep>, p: Path, j: int) {
    0 <= j < |steps| && p in steps[j].touches && forall i | 0 <= i < j :: p !in steps[i].touches
  }

  lemma TouchesAre(steps: seq<PlannedStep>, p: Path)
    ensures p in TouchesOf(steps) <==> exists s :: s in steps && s.kind != Snapshot && p in s.touches
  {
    if steps != [] {
      var n := |steps| - 1;
      TouchesAre(steps[..n], p);
      assert steps == steps[..n] + [steps[n]];
    }
  }

  /**
   * The manifest of a capture has one entry for each path that a step other than the snapshot step
   * touches, and no others. Each says whether the path was a file, with the digest of what it held, and
   * which kind of step comes first to touch it.
   */
  lemma CapturedEntriesAre(
    seen: map<Path, Contents>, sha: Contents -> Digest, plan: Plan, host: SystemProfile, id: string)
    ensures var m := CaptureManifest(seen, sha, plan, host, id);
      && m.id == id && DistinctPaths(m.entries)
      && (forall p :: Covers(m, p) <==> exists s :: s in plan.steps && s.kind != Snapshot && p in s.touches)
      && forall e | e in m.entries ::
           && e.originalExisted == (e.originalPath in seen)
           && e.preEdit == (if e.originalPath in seen then sha(seen[e.originalPath]) else "")
           && e.postEdit == None
           && exists j :: TouchedFirstBy(plan.steps, e.originalPath, j) && e.producedBy == plan.steps[j].kind
  {
    hide Targets, RestoreActions, CaptureEntry, FirstToucher, Covers;
    var m, targets := CaptureManifest(seen, sha, plan, host, id), Targets(plan.steps);
    TargetsAreDistinct(plan.steps);
    EntryPaths(seen, sha, plan.steps, targets);
    forall p ensures Covers(m, p) <==> exists s :: s in plan.steps && s.kind != Snapshot && p in s.touches {
      TargetsMembers(plan.steps, p);
      CoversIff(m, p);
      if p in targets {
        var i :| 0 <= i < |targets| && targets[i] == p;
        assert m.entries[i].originalPath == p;
      }
    }
    forall i | 0 <= i < |m.entries|
      ensures m.entries[i].originalExisted == (m.entries[i].originalPath in seen)
      ensures m.entries[i].preEdit == (if targets[i] in seen then sha(seen[targets[i]]) else "")
      ensures m.entries[i].postEdit == None
      ensures exists j ::
        TouchedFirstBy(plan.steps, m.entries[i].originalPath, j) && m.entries[i].producedBy == plan.steps[j].kind
    {
      assert targets[i] in targets;
      TargetsMembers(plan.steps, targets[i]);
      var j := EntryIs(seen, sha, plan.steps, targets[i]);
    }
  }

  lemma EntryPaths(seen: map<Path, Contents>, sha: Contents -> Digest, steps: seq<PlannedStep>, targets: seq<Path>)
    ensures var entries := CaptureEntries(seen, sha, steps, targets);
      |entries| == |targets| && forall i | 0 <= i < |targets| ::
        entries[i] == CaptureEntry(seen, sha, steps, targets[i]) && entries[i].originalPath == targets[i]
  {
  }

  lemma CoversIff(m: SnapshotManifest, p: Path)
    ensures Covers(m, p) <==> exists i :: 0 <= i < |m.entries| && m.entries[i].originalPath == p
  {
    if exists i :: 0 <= i < |m.entries| && m.entries[i].originalPath == p {
      var i :| 0 <= i < |m.entries| && m.entries[i].originalPath == p;
      CoversAt(m, i);
    }
    if Covers(m, p) {
      assert m.entries[IndexOf(m.entries, p)].originalPath == p;
    }
  }

  lemma EntryIs(seen: map<Path, Contents>, sha: Contents -> Digest, steps: seq<PlannedStep>, p: Path) returns (j: nat)
    requires exists s :: s in steps && s.kind != Snapshot && p in s.touches
    ensures var e := CaptureEntry(seen, sha, steps, p);
      && e.originalPath == p && e.originalExisted == (p in seen) && e.postEdit == None
      && e.preEdit == (if p in seen then sha(seen[p]) else "")
      && TouchedFirstBy(steps, p, j) && e.producedBy == steps[j].kind
  {
    var s :| s in steps && s.kind != Snapshot && p in s.touches;
    var k :| 0 <= k < |steps| && steps[k] == s;
    j := FirstToucher(steps, p);
    assert j <= k;
  }

  lemma TargetsMembers(steps: seq<PlannedStep>, p: Path)
    ensures p in Targets(steps) <==> exists s :: s in steps && s.kind != Snapshot && p in s.touches
  {
    UniqueMembers(TouchesOf(steps));
    TouchesAre(steps, p);
  }

  function BackupOf(roots: Roots, id: string, target: Path): Path {
    roots.BackupPath(id, BackupRelative(target))
  }

  /** A backup of each target that was seen; a later target with the same flat name overwrites. */
  function Backups(seen: map<Path, Contents>, roots: Roots, id: string, targets: seq<Path>): map<Path, Contents> {
    if targets == [] then map[]
    else
      var t := targets[|targets| - 1];
      var before := Backups(seen, roots, id, targets[..|targets| - 1]);
      if t in seen then before[BackupOf(roots, id, t) := seen[t]] else before
  }

  lemma NoBackups(seen: map<Path, Contents>, roots: Roots, id: string)
    ensures Backups(seen, roots, id, []) == map[]
  {
  }

  lemma BackupsSnoc(seen: map<Path, Contents>, roots: Roots, id: string, targets: seq<Path>, t: Path)
    ensures Backups(seen, roots, id, targets + [t]) ==
      var before := Backups(seen, roots, id, targets);
      if t in seen then before[BackupOf(roots, id, t) := seen[t]] else before
  {
    assert (targets + [t])[..|targets|] == targets;
  }

  lemma BackupsAreNoManifest(seen: map<Path, Contents>, roots: Roots, id: string, targets: seq<Path>)
    ensures roots.ManifestPath(id) !in Backups(seen, roots, id, targets)
  {
    if targets != [] {
      BackupsAreNoManifest(seen, roots, id, targets[..|targets| - 1]);
      BackupIsNoManifest(roots, id, targets[|targets| - 1]);
      assert roots.IsManifestPath(roots.ManifestPath(id));
    }
  }

  /** Entries and backups depend on what was seen of their own targets only. */
  lemma DependsOnOwnTargets(
    seen: map<Path, Contents>, more: map<Path, Contents>, roots: Roots, sha: Contents -> Digest, id: string,
    steps: seq<PlannedStep>, targets: seq<Path>)
    requires forall t | t in targets :: Agree(seen, more, t)
    ensures CaptureEntries(seen, sha, steps, targets) == CaptureEntries(more, sha, steps, targets)
    ensures Backups(seen, roots, id, targets) == Backups(more, roots, id, targets)
  {
    forall i | 0 <= i < |targets|
      ensures CaptureEntry(seen, sha, steps, targets[i]) == CaptureEntry(more, sha, steps, targets[i])
    {
      assert Agree(seen, more, targets[i]);
    }
    if targets != [] {
      assert Agree(seen, more, targets[|targets| - 1]);
      DependsOnOwnTargets(seen, more, roots, sha, id, steps, targets[..|targets| - 1]);
    }
  }

  /** The backup of an existing target is the content of some existing target with the same flat name. */
  lemma {:induction false} BackupComesFrom(
    seen: map<Path, Contents>, roots: Roots, id: string, targets: seq<Path>, i: nat)
    returns (j: nat)
    requires i < |targets| && targets[i] in seen
    ensures j < |targets| && targets[j] in seen && Sanitize(targets[j]) == Sanitize(targets[i])
    ensures var stored := Backups(seen, roots, id, targets); var b := BackupOf(roots, id, targets[i]);
      b in stored && stored[b] == seen[targets[j]]
  {
    hide Sanitize;
    var n := |targets| - 1;
    if targets[n] in seen && Sanitize(targets[n]) == Sanitize(targets[i]) {
      j := n;
    } else {
      j := BackupComesFrom(seen, roots, id, targets[..n], i);
      assert BackupOf(roots, id, targets[n])[|roots.snapshots| + 2] == Sanitize(targets[n]);
      assert BackupOf(roots, id, targets[i])[|roots.snapshots| + 2] == Sanitize(targets[i]);
    }
  }

  /** Existing targets that share a flat backup name hold the same content. */
  ghost predicate NoClash(seen: map<Path, Contents>, targets: seq<Path>) {
    forall i, j | 0 <= i < |targets| && 0 <= j < |targets|
        && targets[i] in seen && targets[j] in seen && Sanitize(targets[i]) == Sanitize(targets[j]) ::
      seen[targets[i]] == seen[targets[j]]
  }

  /** Clean, distinct targets never clash. */
  lemma CleanTargetsDoNotClash(seen: map<Path, Contents>, targets: seq<Path>)
    requires forall t | t in targets && t in seen :: Clean(t)
    ensures NoClash(seen, targets)
  {
    forall i, j | 0 <= i < |targets| && 0 <= j < |targets|
        && targets[i] in seen && targets[j] in seen && Sanitize(targets[i]) == Sanitize(targets[j])
      ensures seen[targets[i]] == seen[targets[j]]
    {
      SanitizeInjective(targets[i], targets[j]);
    }
  }

  /** Below `dir` there are exactly these files. */
  ghost predicate DirHolds(dir: Path, d: Disk, files: map<Path, Contents>) {
    forall p | Under(dir, p) :: (p in d.files <==> p in files) && (p in files ==> d.files[p] == files[p])
  }

  /** The snapshot directory right after a successful capture that saw `seen`. */
  ghost predicate Captured(
    d: Disk, seen: map<Path, Contents>, roots: Roots, sha: Contents -> Digest, plan: Plan, host: SystemProfile,
    id: string)
  {
    DirHolds(
      roots.SnapshotDir(id), d,
      Backups(seen, roots, id, Targets(plan.steps))
        [roots.ManifestPath(id) := ManifestFile(CaptureManifest(seen, sha, plan, host, id))])
  }

  lemma CapturedBackup(
    d: Disk, seen: map<Path, Contents>, roots: Roots, sha: Contents -> Digest, plan: Plan, host: SystemProfile,
    id: string, i: nat)
    returns (j: nat)
    requires Captured(d, seen, roots, sha, plan, host, id)
    requires i < |Targets(plan.steps)| && Targets(plan.steps)[i] in seen
    ensures var targets := Targets(plan.steps);
      && j < |targets| && targets[j] in seen && Sanitize(targets[j]) == Sanitize(targets[i])
      && BackupOf(roots, id, targets[i]) in d.files
      && d.files[BackupOf(roots, id, targets[i])] == seen[targets[j]]
  {
    hide Targets, Sanitize, CaptureManifest;
    j := BackupComesFrom(seen, roots, id, Targets(plan.steps), i);
    BackupIsNoManifest(roots, id, Targets(plan.steps)[i]);
    assert roots.IsManifestPath(roots.ManifestPath(id));
  }

  lemma CaptureManifestIs(
    d: Disk, seen: map<Path, Contents>, roots: Roots, sha: Contents -> Digest, plan: Plan, host: SystemProfile,
    id: string)
    requires Captured(d, seen, roots, sha, plan, host, id)
    ensures HasManifest(d, roots, id)
    ensures ManifestOf(d, roots, id) == CaptureManifest(seen, sha, plan, host, id)
  {
    hide Targets, CaptureManifest;
    assert Under(roots.SnapshotDir(id), roots.ManifestPath(id));
  }

  /** The manifest of a capture is for distinct host paths. */
  lemma CaptureIsTidy(
    seen: map<Path, Contents>, roots: Roots, sha: Contents -> Digest, plan: Plan, host: SystemProfile, id: string)
    requires forall t | t in Targets(plan.steps) :: !roots.Protected(t)
    ensures Tidy(roots, CaptureManifest(seen, sha, plan, host, id))
  {
    hide Targets, Sanitize, ProducedBy, Roots.Protected;
    TargetsAreDistinct(plan.steps);
  }

  lemma CaptureIsRestorable(
    d: Disk, seen: map<Path, Contents>, roots: Roots, sha: Contents -> Digest, plan: Plan, host: SystemProfile,
    id: string, i: nat)
    requires Captured(d, seen, roots, sha, plan, host, id) && i < |Targets(plan.steps)|
    requires forall t | t in Targets(plan.steps) :: !roots.Protected(t)
    requires NoClash(seen, Targets(plan.steps))
    ensures EntryBacks(d, roots, sha, id, CaptureEntry(seen, sha, plan.steps, Targets(plan.steps)[i]), seen)
  {
    hide Captured, Targets, Sanitize, ProducedBy, Roots.Protected, Roots.BackupPath, Backups;
    var targets := Targets(plan.steps);
    assert targets[i] in targets;
    if targets[i] in seen {
      var j := CapturedBackup(d, seen, roots, sha, plan, host, id, i);
      assert seen[targets[i]] == seen[targets[j]];
    }
  }

  /**
   * A snapshot holds what its capture saw exactly when no two existing targets with different
   * contents share a flat backup name.
   */
  lemma CaptureBacksIff(
    d: Disk, seen: map<Path, Contents>, roots: Roots, sha: Contents -> Digest, plan: Plan, host: SystemProfile,
    id: string)
    requires Captured(d, seen, roots, sha, plan, host, id)
    requires forall t | t in Targets(plan.steps) :: !roots.Protected(t)
    ensures Backs(d, roots, sha, id, Targets(plan.steps), seen) <==> NoClash(seen, Targets(plan.steps))
  {
    hide Captured, Targets, Sanitize, ProducedBy, Roots.Protected, Backups, EntryRestorable;
    var targets := Targets(plan.steps);
    CaptureManifestIs(d, seen, roots, sha, plan, host, id);
    TargetsAreDistinct(plan.steps);
    var entries := ManifestOf(d, roots, id).entries;
    if NoClash(seen, targets) {
      forall i | 0 <= i < |targets|
        ensures EntryBacks(d, roots, sha, id, entries[i], seen)
      {
        CaptureIsRestorable(d, seen, roots, sha, plan, host, id, i);
      }
      assert Restorable(d, roots, sha, id);
    }
    if Backs(d, roots, sha, id, targets, seen) {
      forall i, j | 0 <= i < |targets| && 0 <= j < |targets|
          && targets[i] in seen && targets[j] in seen && Sanitize(targets[i]) == Sanitize(targets[j])
        ensures seen[targets[i]] == seen[targets[j]]
      {
        assert EntryBacks(d, roots, sha, id, entries[i], seen) && EntryBacks(d, roots, sha, id, entries[j], seen);
      }
    }
  }

  lemma TargetsAreDistinct(steps: seq<PlannedStep>)
    ensures Distinct(Targets(steps))
  {
    UniqueMembers(TouchesOf(steps));
  }

  // ----- what may happen while it is taken -----

  ghost predicate Agree(seen: map<Path, Contents>, files: map<Path, Contents>, t: Path) {
    (t in seen <==> t in files) && (t in seen ==> files[t] == seen[t])
  }

  /** What was seen of `t` is what one of the operations from `n` on found there. */
  ghost predicate SeenAt(journal: seq<Event>, n: nat, seen: map<Path, Contents>, t: Path) {
    exists k :: n <= k < |journal| && Agree(seen, journal[k].before.files, t)
  }

  /** ... and so did an operation ahead of which no host file had been written. */
  ghost predicate SeenFirst(roots: Roots, journal: seq<Event>, n: nat, seen: map<Path, Contents>, t: Path) {
    exists k :: n <= k < |journal| && Agree(seen, journal[k].before.files, t)
      && forall i | n <= i < k && journal[i].path.Some? :: roots.Protected(journal[i].path.value)
  }

  /** Virtu's own files outside `dir` are the same on both disks. */
  ghost predicate OwnOutside(roots: Roots, dir: Path, d: Disk, later: Disk) {
    forall p | roots.Protected(p) && !Under(dir, p) :: Same(d, later, p)
  }

  ghost predicate OwnDirsStay(roots: Roots, d: Disk, later: Disk) {
    forall p | roots.Protected(p) && p in d.dirs :: p in later.dirs
  }

  /** The targets are as they were, but for becoming directories on the way to the backups; no directory is gone. */
  ghost predicate TargetsStay(roots: Roots, id: string, targets: set<Path>, d: Disk, later: Disk) {
    && (forall t | t in targets ::
          Same(d, later, t)
          && (t in later.dirs ==> t in d.dirs || t in Ancestors(roots.SnapshotDir(id) + [FILES_SUBDIR])))
    && d.dirs <= later.dirs
  }

  /** No record has changed, and where others are quiet no target. */
  ghost predicate Undisturbed(roots: Roots, id: string, targets: set<Path>, quiet: bool, d: Disk, later: Disk) {
    && OwnFiles(roots, d, later) && OwnDirsStay(roots, d, later)
    && (quiet ==> TargetsStay(roots, id, targets, d, later))
  }

  lemma UndisturbedMore(
    roots: Roots, id: string, targets: set<Path>, quiet: bool, a: Disk, b: Disk, c: Disk)
    requires Undisturbed(roots, id, targets, quiet, a, b) && Undisturbed(roots, id, targets, quiet, b, c)
    ensures Undisturbed(roots, id, targets, quiet, a, c)
  {
    forall p | roots.Protected(p) ensures Same(a, c, p) {
      assert Same(a, b, p) && Same(b, c, p);
    }
    if quiet {
      forall t | t in targets ensures Same(a, c, t) {
        assert Same(a, b, t) && Same(b, c, t);
      }
    }
  }

  /** Others act, and then perhaps the directory of the backups is made. */
  lemma GapIsUndisturbed(
    roots: Roots, id: string, targets: set<Path>, quiet: bool, d: Disk, found: Disk, later: Disk)
    requires SameOwn(roots, d, found) && (quiet ==> HandsOff(targets, d, found))
    requires later.files == found.files
    requires found.dirs <= later.dirs <= found.dirs + Ancestors(roots.SnapshotDir(id) + [FILES_SUBDIR])
    ensures Undisturbed(roots, id, targets, quiet, d, found) && Undisturbed(roots, id, targets, quiet, d, later)
  {
    forall p | roots.Protected(p) ensures Same(d, found, p) && Same(d, later, p) {
    }
    if quiet {
      forall t | t in targets ensures Same(d, found, t) && Same(d, later, t) {
      }
    }
  }

  /** Operations of a capture stay in the new snapshot's directory, which has no manifest yet. */
  ghost predicate CaptureEvent(roots: Roots, id: string, base: Disk, e: Event) {
    && (e.path.Some? ==> Under(roots.SnapshotDir(id), e.path.value))
    && OwnOutside(roots, roots.SnapshotDir(id), base, e.before)
    && !HasManifest(e.before, roots, id)
  }

  ghost predicate CaptureEvents(roots: Roots, id: string, base: Disk, journal: seq<Event>, n: nat) {
    forall k | n <= k < |journal| :: CaptureEvent(roots, id, base, journal[k])
  }

  /** No target is a bare directory, nor becomes one when the snapshot directory is made. */
  ghost predicate Capturable(d: Disk, roots: Roots, id: string, targets: seq<Path>) {
    forall t | t in targets ::
      t in d.files || (t !in d.dirs && t !in Ancestors(roots.SnapshotDir(id) + [FILES_SUBDIR]))
  }

  ghost predicate FreshId(d: Disk, roots: Roots, id: string) {
    forall p | p in d.files :: !Under(roots.SnapshotDir(id), p)
  }

  function Looked(target: Path, got: Option<Contents>): map<Path, Contents> {
    if got.Some? then map[target := got.value] else map[]
  }

  // ----- the capture itself -----

  /** Nothing happens to Virtu's own files before an operation of these, which touches `path` if anything. */
  ghost predicate Beside(roots: Roots, d: Disk, journal: seq<Event>, n: nat, path: Option<Path>) {
    forall k | n <= k < |journal| :: OwnFiles(roots, d, journal[k].before) && journal[k].path in {None, path}
  }

  lemma OneBeside(roots: Roots, d: Disk, journal: seq<Event>, n: nat, e: Event, path: Option<Path>)
    requires n <= |journal| && Beside(roots, d, journal, n, path)
    requires OwnFiles(roots, d, e.before) && e.path in {None, path}
    ensures Beside(roots, d, journal + [e], n, path)
  {
  }

  /** Is there something at the target, and what? */
  method LookAt(
    fs: FileSystem, roots: Roots, target: Path, id: string, ghost targets: set<Path>, ghost quiet: bool)
    returns (r: Result<Option<Contents>, Error>)
    requires roots == fs.reserved && (quiet ==> fs.Quiet(targets)) && target in targets
    modifies fs
    ensures fs.Advances() && (quiet ==> fs.Quiet(targets))
    ensures Undisturbed(roots, id, targets, quiet, old(fs.state), fs.state)
    ensures Beside(roots, old(fs.state), fs.journal, |old(fs.journal)|, None)
    ensures r.Success? ==> SeenAt(fs.journal, |old(fs.journal)|, Looked(target, r.value), target)
    ensures quiet && r.Success? ==> Agree(Looked(target, r.value), old(fs.state).files, target)
    ensures quiet && old(fs.Calm()) && (target in old(fs.state).files || target !in old(fs.state).dirs) ==> r.Success?
  {
    hide FileSystem.OnRecord, Undisturbed, Merged;
    ghost var start, journal, first := fs.state, fs.journal, fs.Found();
    ghost var second := fs.Others(fs.ops + 1, first);
    GapIsUndisturbed(roots, id, targets, quiet, start, first, first);
    GapIsUndisturbed(roots, id, targets, quiet, first, second, second);
    UndisturbedMore(roots, id, targets, quiet, start, first, second);
    UndisturbedFacts(roots, id, targets, quiet, start, first);
    UndisturbedFacts(roots, id, targets, quiet, start, second);
    OneBeside(roots, start, journal, |journal|, Event(first, first, None), None);
    var there := fs.Exists(target);
    ghost var looked := fs.journal;
    if !there {
      assert looked[|journal|].before == first && Agree(Looked(target, None), looked[|journal|].before.files, target);
      return Success(None);
    }
    OneBeside(roots, start, looked, |journal|, Event(second, second, None), None);
    var bytes :- fs.Read(target);
    assert fs.journal[|looked|].before == second;
    assert Agree(Looked(target, Some(bytes)), fs.journal[|looked|].before.files, target);
    return Success(Some(bytes));
  }

  lemma UndisturbedFacts(roots: Roots, id: string, targets: set<Path>, quiet: bool, d: Disk, later: Disk)
    requires Undisturbed(roots, id, targets, quiet, d, later)
    ensures OwnFiles(roots, d, later)
    ensures quiet ==> forall t | t in targets :: Same(d, later, t)
  {
  }

  /** Puts the backup of `target` in place. */
  method StoreBackup(
    fs: FileSystem, roots: Roots, target: Path, id: string, backupAbsolute: Path, bytes: Contents,
    ghost targets: set<Path>, ghost quiet: bool)
    returns (r: Outcome<Error>)
    requires roots == fs.reserved && (quiet ==> fs.Quiet(targets)) && backupAbsolute == BackupOf(roots, id, target)
    requires forall t | t in targets :: !roots.Protected(t)
    modifies fs
    ensures fs.Advances() && (quiet ==> fs.Quiet(targets))
    ensures OwnDirsStay(roots, old(fs.state), fs.state)
    ensures quiet ==> TargetsStay(roots, id, targets, old(fs.state), fs.state)
    ensures r.Fail? ==> OwnFiles(roots, old(fs.state), fs.state)
    ensures r.Pass? ==>
      && backupAbsolute in fs.state.files && fs.state.files[backupAbsolute] == bytes
      && (forall p | roots.Protected(p) && p != backupAbsolute :: Same(old(fs.state), fs.state, p))
    ensures Beside(roots, old(fs.state), fs.journal, |old(fs.journal)|, Some(backupAbsolute))
    ensures quiet && old(fs.Calm()) ==> r.Pass?
  {
    hide FileSystem.OnRecord, Undisturbed, Merged, Sanitize;
    ghost var start, journal, first := fs.state, fs.journal, fs.Found();
    BackupIsNoManifest(roots, id, target);
    var parent := backupAbsolute[..|backupAbsolute| - 1];
    assert parent == roots.SnapshotDir(id) + [FILES_SUBDIR];
    r := fs.CreateDirAll(parent);
    ghost var made, found := fs.state, fs.Found();
    GapIsUndisturbed(roots, id, targets, quiet, start, first, made);
    UndisturbedFacts(roots, id, targets, quiet, start, first);
    OneBeside(roots, start, journal, |journal|, Event(first, made, None), Some(backupAbsolute));
    StoredFacts(roots, id, targets, quiet, start, made);
    if r.Fail? {
      return;
    }
    AncestorsAt(parent, |parent|);
    assert parent[..|parent|] == parent;
    GapIsUndisturbed(roots, id, targets, quiet, made, found, found);
    UndisturbedMore(roots, id, targets, quiet, start, made, found);
    StoredFacts(roots, id, targets, quiet, start, found);
    ghost var before := fs.journal;
    r := fs.WriteAtomic(backupAbsolute, bytes);
    OneBeside(
      roots, start, before, |journal|, Event(found, fs.state, if r.Pass? then Some(backupAbsolute) else None),
      Some(backupAbsolute));
  }

  lemma StoredFacts(roots: Roots, id: string, targets: set<Path>, quiet: bool, d: Disk, later: Disk)
    requires Undisturbed(roots, id, targets, quiet, d, later)
    ensures OwnFiles(roots, d, later) && OwnDirsStay(roots, d, later)
    ensures quiet ==> TargetsStay(roots, id, targets, d, later)
  {
  }

  /** `got` is what was read, if there was anything to read. */
  method CaptureOne(
    fs: FileSystem, roots: Roots, sha: Contents -> Digest, target: Path, id: string, steps: seq<PlannedStep>,
    ghost targets: set<Path>, ghost quiet: bool)
    returns (r: Result<SnapshotEntry, Error>, ghost got: Option<Contents>)
    requires roots == fs.reserved && (quiet ==> fs.Quiet(targets)) && target in targets
    requires forall t | t in targets :: !roots.Protected(t)
    modifies fs
    ensures fs.Advances() && (quiet ==> fs.Quiet(targets))
    ensures r.Success? ==> r.value == CaptureEntry(Looked(target, got), sha, steps, target)
    ensures OwnDirsStay(roots, old(fs.state), fs.state)
    ensures quiet ==> TargetsStay(roots, id, targets, old(fs.state), fs.state)
    ensures r.Failure? || got.None? ==> OwnFiles(roots, old(fs.state), fs.state)
    ensures r.Success? && got.Some? ==>
      && BackupOf(roots, id, target) in fs.state.files && fs.state.files[BackupOf(roots, id, target)] == got.value
      && (forall p | roots.Protected(p) && p != BackupOf(roots, id, target) :: Same(old(fs.state), fs.state, p))
    ensures Beside(roots, old(fs.state), fs.journal, |old(fs.journal)|, Some(BackupOf(roots, id, target)))
    ensures r.Success? ==> SeenAt(fs.journal, |old(fs.journal)|, Looked(target, got), target)
    ensures quiet && r.Success? ==> Agree(Looked(target, got), old(fs.state).files, target)
    ensures quiet && old(fs.Calm()) && (target in old(fs.state).files || target !in old(fs.state).dirs) ==> r.Success?
  {
    hide FileSystem.OnRecord, Undisturbed, TargetsStay, SeenAt, Beside, OwnDirsStay, Same, SameOwn, Sanitize;
    got := None;
    var name := SanitizePath(target);
    var backupRelative := [FILES_SUBDIR, name];
    var backupAbsolute := roots.SnapshotDir(id) + backupRelative;
    var i := 0;
    while i < |steps| && target !in steps[i].touches
      invariant 0 <= i <= |steps|
      invariant forall j | 0 <= j < i :: target !in steps[j].touches
    {
      i := i + 1;
    }
    var producedBy := if i < |steps| then steps[i].kind else Verify;
    assert FirstToucher(steps, target) == i;
    ghost var start, journal := fs.state, fs.journal;
    var found := LookAt(fs, roots, target, id, targets, quiet);
    ghost var seen, looked := fs.state, fs.journal;
    StoredFacts(roots, id, targets, quiet, start, seen);
    BesideAny(roots, start, fs.journal, |journal|, backupAbsolute);
    if found.Failure? {
      return Failure(found.error), got;
    }
    got := found.value;
    match found.value {
      case None =>
        return Success(SnapshotEntry(target, backupRelative, "", None, false, producedBy)), got;
      case Some(bytes) =>
        var preHash := sha(bytes);
        var stored := StoreBackup(fs, roots, target, id, backupAbsolute, bytes, targets, quiet);
        AfterLook(roots, id, targets, quiet, start, seen, fs.state, journal, looked, fs.journal, backupAbsolute);
        SeenStays(looked, fs.journal, |journal|, Looked(target, got), target);
        if stored.Fail? {
          return Failure(stored.error), got;
        }
        forall p | roots.Protected(p) && p != backupAbsolute ensures Same(start, fs.state, p) {
          SameTransitive(start, seen, fs.state, p);
        }
        return Success(SnapshotEntry(target, backupRelative, preHash, None, true, producedBy)), got;
    }
  }

  lemma BesideAny(roots: Roots, d: Disk, journal: seq<Event>, n: nat, path: Path)
    requires Beside(roots, d, journal, n, None)
    ensures Beside(roots, d, journal, n, Some(path))
  {
  }

  lemma SeenStays(journal: seq<Event>, more: seq<Event>, n: nat, seen: map<Path, Contents>, t: Path)
    requires SeenAt(journal, n, seen, t) && journal <= more
    ensures SeenAt(more, n, seen, t)
  {
    var k :| n <= k < |journal| && Agree(seen, journal[k].before.files, t);
    assert more[k] == journal[k];
  }

  /** The look at the target and the storing of its backup, taken together. */
  lemma AfterLook(
    roots: Roots, id: string, targets: set<Path>, quiet: bool, start: Disk, seen: Disk, later: Disk,
    journal: seq<Event>, looked: seq<Event>, more: seq<Event>, path: Path)
    requires Undisturbed(roots, id, targets, quiet, start, seen) && OwnDirsStay(roots, seen, later)
    requires quiet ==> TargetsStay(roots, id, targets, seen, later)
    requires journal <= looked <= more
    requires Beside(roots, start, looked, |journal|, Some(path)) && Beside(roots, seen, more, |looked|, Some(path))
    ensures OwnDirsStay(roots, start, later)
    ensures quiet ==> TargetsStay(roots, id, targets, start, later)
    ensures Beside(roots, start, more, |journal|, Some(path))
    ensures OwnFiles(roots, seen, later) ==> OwnFiles(roots, start, later)
  {
    forall k | |journal| <= k < |more|
      ensures OwnFiles(roots, start, more[k].before) && more[k].path in {None, Some(path)}
    {
      if k < |looked| {
        assert more[k] == looked[k];
      } else {
        OwnFilesMore(roots, start, seen, more[k].before);
      }
    }
    if OwnFiles(roots, seen, later) {
      OwnFilesMore(roots, start, seen, later);
    }
    if quiet {
      forall t | t in targets ensures Same(start, later, t) {
        SameTransitive(start, seen, later, t);
      }
    }
  }

  // ----- the capture loop -----

  ghost function TargetsOf(targets: seq<Path>): set<Path> {
    set t | t in targets
  }

  /** The first `i` targets have been dealt with: their entries, their backups, and nothing else. */
  ghost predicate CaptureProgress(
    roots: Roots, sha: Contents -> Digest, id: string, steps: seq<PlannedStep>, targets: seq<Path>, i: nat,
    base: Disk, d: Disk, journal: seq<Event>, n: nat, seen: map<Path, Contents>, entries: seq<SnapshotEntry>)
    requires i <= |targets|
  {
    && entries == CaptureEntries(seen, sha, steps, targets[..i])
    && (forall t | t in seen :: t in targets[..i])
    && DirHolds(roots.SnapshotDir(id), d, Backups(seen, roots, id, targets[..i]))
    && OwnOutside(roots, roots.SnapshotDir(id), base, d) && OwnDirsStay(roots, base, d)
    && (forall t | t in targets[..i] :: SeenAt(journal, n, seen, t))
    && CaptureEvents(roots, id, base, journal, n)
  }

  lemma CaptureStarts(
    roots: Roots, sha: Contents -> Digest, id: string, steps: seq<PlannedStep>, targets: seq<Path>,
    base: Disk, d: Disk, journal: seq<Event>, n: nat)
    requires FreshId(base, roots, id) && OwnFiles(roots, base, d) && OwnDirsStay(roots, base, d)
    requires CaptureEvents(roots, id, base, journal, n)
    ensures CaptureProgress(roots, sha, id, steps, targets, 0, base, d, journal, n, map[], [])
  {
    NoBackups(map[], roots, id);
    assert targets[..0] == [];
    forall p | Under(roots.SnapshotDir(id), p) ensures p !in d.files {
      assert Under(roots.snapshots, p) && Same(base, d, p);
    }
  }

  /** One more target, and what was seen of it. */
  lemma CaptureGrows(
    roots: Roots, sha: Contents -> Digest, id: string, steps: seq<PlannedStep>, targets: seq<Path>, i: nat,
    base: Disk, before: Disk, d: Disk, journal: seq<Event>, more: seq<Event>, n: nat,
    seen: map<Path, Contents>, entries: seq<SnapshotEntry>, got: Option<Contents>)
    requires i < |targets| && Distinct(targets) && n <= |journal| && journal <= more
    requires CaptureProgress(roots, sha, id, steps, targets, i, base, before, journal, n, seen, entries)
    requires CaptureEvents(roots, id, base, more, n) && OwnDirsStay(roots, before, d)
    requires SeenAt(more, |journal|, Looked(targets[i], got), targets[i])
    requires got.None? ==> OwnFiles(roots, before, d)
    requires got.Some? ==>
      && BackupOf(roots, id, targets[i]) in d.files && d.files[BackupOf(roots, id, targets[i])] == got.value
      && (forall p | roots.Protected(p) && p != BackupOf(roots, id, targets[i]) :: Same(before, d, p))
    ensures CaptureProgress(
      roots, sha, id, steps, targets, i + 1, base, d, more, n, seen + Looked(targets[i], got),
      entries + [CaptureEntry(Looked(targets[i], got), sha, steps, targets[i])])
  {
    hide Sanitize, ProducedBy, SeenAt, CaptureEvents, Roots.Protected;
    var t := targets[i];
    var later := seen + Looked(t, got);
    assert targets[..i + 1] == targets[..i] + [t];
    assert t !in targets[..i];
    DependsOnOwnTargets(seen, later, roots, sha, id, steps, targets[..i]);
    assert CaptureEntry(later, sha, steps, t) == CaptureEntry(Looked(t, got), sha, steps, t);
    BackupsSnoc(later, roots, id, targets[..i], t);
    forall u | u in targets[..i + 1] ensures SeenAt(more, n, later, u) {
      SeenMore(journal, more, n, seen, later, targets[..i], t, Looked(t, got), u);
    }
    BackupIsNoManifest(roots, id, t);
    DirGrows(roots, id, t, base, before, d, Backups(seen, roots, id, targets[..i]), got);
  }

  lemma SeenMore(
    journal: seq<Event>, more: seq<Event>, n: nat, seen: map<Path, Contents>, later: map<Path, Contents>,
    done: seq<Path>, t: Path, look: map<Path, Contents>, u: Path)
    requires n <= |journal| && journal <= more && t !in done && later == seen + look && look.Keys <= {t} && t !in seen
    requires forall v | v in done :: SeenAt(journal, n, seen, v)
    requires SeenAt(more, |journal|, look, t) && u in done + [t]
    ensures SeenAt(more, n, later, u)
  {
    if u == t {
      var k :| |journal| <= k < |more| && Agree(look, more[k].before.files, t);
      assert Agree(later, more[k].before.files, t);
    } else {
      var k :| n <= k < |journal| && Agree(seen, journal[k].before.files, u);
      assert more[k] == journal[k];
      assert Agree(later, more[k].before.files, u);
    }
  }

  lemma DirGrows(
    roots: Roots, id: string, t: Path, base: Disk, before: Disk, d: Disk, stored: map<Path, Contents>,
    got: Option<Contents>)
    requires DirHolds(roots.SnapshotDir(id), before, stored)
    requires OwnOutside(roots, roots.SnapshotDir(id), base, before)
    requires got.None? ==> OwnFiles(roots, before, d)
    requires got.Some? ==>
      && BackupOf(roots, id, t) in d.files && d.files[BackupOf(roots, id, t)] == got.value
      && (forall p | roots.Protected(p) && p != BackupOf(roots, id, t) :: Same(before, d, p))
    ensures DirHolds(
      roots.SnapshotDir(id), d, if got.Some? then stored[BackupOf(roots, id, t) := got.value] else stored)
    ensures OwnOutside(roots, roots.SnapshotDir(id), base, d)
  {
    BackupIsNoManifest(roots, id, t);
    forall p | Under(roots.SnapshotDir(id), p) ensures roots.Protected(p) {
      assert Under(roots.snapshots, roots.SnapshotDir(id));
    }
    var later := if got.Some? then stored[BackupOf(roots, id, t) := got.value] else stored;
    forall p | Under(roots.SnapshotDir(id), p)
      ensures (p in d.files <==> p in later) && (p in later ==> d.files[p] == later[p])
    {
      if got.None? || p != BackupOf(roots, id, t) {
        assert Same(before, d, p);
      }
    }
    forall p | roots.Protected(p) && !Under(roots.SnapshotDir(id), p) ensures Same(base, d, p) {
      assert Same(base, before, p);
      assert Same(before, d, p);
    }
  }

  /** The operations of one round are those of a capture, since the disk before it had no manifest. */
  lemma RoundIsCapture(
    roots: Roots, id: string, target: Path, base: Disk, before: Disk, journal: seq<Event>, more: seq<Event>, n: nat)
    requires n <= |journal| && journal <= more
    requires CaptureEvents(roots, id, base, journal, n)
    requires OwnOutside(roots, roots.SnapshotDir(id), base, before) && !HasManifest(before, roots, id)
    requires Beside(roots, before, more, |journal|, Some(BackupOf(roots, id, target)))
    ensures CaptureEvents(roots, id, base, more, n)
  {
    hide Sanitize;
    BackupIsNoManifest(roots, id, target);
    forall k | n <= k < |more| ensures CaptureEvent(roots, id, base, more[k]) {
      if k < |journal| {
        assert more[k] == journal[k];
      } else {
        StillNoManifest(roots, id, base, before, more[k].before);
      }
    }
  }

  lemma StillNoManifest(roots: Roots, id: string, base: Disk, before: Disk, d: Disk)
    requires OwnOutside(roots, roots.SnapshotDir(id), base, before) && !HasManifest(before, roots, id)
    requires OwnFiles(roots, before, d)
    ensures OwnOutside(roots, roots.SnapshotDir(id), base, d) && !HasManifest(d, roots, id)
  {
    forall p | roots.Protected(p) && !Under(roots.SnapshotDir(id), p) ensures Same(base, d, p) {
      SameTransitive(base, before, d, p);
    }
    assert Under(roots.snapshots, roots.ManifestPath(id));
    assert Same(before, d, roots.ManifestPath(id));
  }

  lemma NotYetStored(
    roots: Roots, sha: Contents -> Digest, id: string, steps: seq<PlannedStep>, targets: seq<Path>, i: nat,
    base: Disk, d: Disk, journal: seq<Event>, n: nat, seen: map<Path, Contents>, entries: seq<SnapshotEntry>)
    requires i <= |targets|
    requires CaptureProgress(roots, sha, id, steps, targets, i, base, d, journal, n, seen, entries)
    ensures !HasManifest(d, roots, id) && OwnOutside(roots, roots.SnapshotDir(id), base, d)
    ensures OwnDirsStay(roots, base, d) && CaptureEvents(roots, id, base, journal, n)
  {
    BackupsAreNoManifest(seen, roots, id, targets[..i]);
    assert Under(roots.SnapshotDir(id), roots.ManifestPath(id));
  }

  lemma TargetsStayMore(roots: Roots, id: string, targets: set<Path>, a: Disk, b: Disk, c: Disk)
    requires TargetsStay(roots, id, targets, a, b) && TargetsStay(roots, id, targets, b, c)
    ensures TargetsStay(roots, id, targets, a, c)
  {
    forall t | t in targets ensures Same(a, c, t) {
      SameTransitive(a, b, c, t);
    }
  }

  /** Where the targets stay, what was seen is what was there at the start, and a round can succeed if it could then. */
  lemma RoundIsQuiet(
    roots: Roots, id: string, targets: seq<Path>, base: Disk, d: Disk, seen: map<Path, Contents>, i: nat)
    requires TargetsStay(roots, id, TargetsOf(targets), base, d) && i < |targets|
    ensures Same(base, d, targets[i])
    ensures Capturable(base, roots, id, targets) ==> targets[i] in d.files || targets[i] !in d.dirs
  {
    assert targets[i] in targets;
  }

  method CaptureAll(
    fs: FileSystem, roots: Roots, sha: Contents -> Digest, targets: seq<Path>, id: string, steps: seq<PlannedStep>,
    ghost base: Disk, ghost n: nat, ghost quiet: bool)
    returns (r: Result<seq<SnapshotEntry>, Error>, ghost seen: map<Path, Contents>)
    requires roots == fs.reserved && (quiet ==> fs.Quiet(TargetsOf(targets)))
    requires Distinct(targets) && forall t | t in targets :: !roots.Protected(t)
    requires n <= |fs.journal| && CaptureEvents(roots, id, base, fs.journal, n)
    requires FreshId(base, roots, id) && OwnFiles(roots, base, fs.state) && OwnDirsStay(roots, base, fs.state)
    requires quiet ==> TargetsStay(roots, id, TargetsOf(targets), base, fs.state)
    modifies fs
    ensures fs.Advances() && (quiet ==> fs.Quiet(TargetsOf(targets)))
    ensures quiet ==> TargetsStay(roots, id, TargetsOf(targets), base, fs.state)
    ensures r.Success? ==>
      CaptureProgress(roots, sha, id, steps, targets, |targets|, base, fs.state, fs.journal, n, seen, r.value)
    ensures !HasManifest(fs.state, roots, id) && OwnOutside(roots, roots.SnapshotDir(id), base, fs.state)
    ensures OwnDirsStay(roots, base, fs.state) && CaptureEvents(roots, id, base, fs.journal, n)
    ensures OwnDirsStay(roots, old(fs.state), fs.state)
    ensures quiet && r.Success? ==> forall t | t in targets :: Agree(seen, base.files, t)
    ensures quiet && old(fs.Calm()) && Capturable(base, roots, id, targets) ==> r.Success?
  {
    hide FileSystem.OnRecord, CaptureProgress, CaptureEvents, TargetsStay, OwnFiles, OwnOutside, OwnDirsStay, Beside;
    hide SeenAt, Same;
    hide TargetsOf, Capturable, Sanitize, CaptureEntry, FreshId, Distinct;
    ghost var start := fs.state;
    var entries: seq<SnapshotEntry> := [];
    seen := map[];
    OwnDirsSame(roots, start);
    CaptureStarts(roots, sha, id, steps, targets, base, fs.state, fs.journal, n);
    NotYetStored(roots, sha, id, steps, targets, 0, base, fs.state, fs.journal, n, seen, entries);
    for i := 0 to |targets|
      invariant fs.Advances() && (quiet ==> fs.Quiet(TargetsOf(targets)))
      invariant CaptureProgress(roots, sha, id, steps, targets, i, base, fs.state, fs.journal, n, seen, entries)
      invariant quiet ==> TargetsStay(roots, id, TargetsOf(targets), base, fs.state)
      invariant quiet ==> forall t | t in targets[..i] :: Agree(seen, base.files, t)
      invariant OwnDirsStay(roots, start, fs.state)
    {
      ghost var before, journal := fs.state, fs.journal;
      NotYetStored(roots, sha, id, steps, targets, i, base, before, journal, n, seen, entries);
      MemberOfTargets(targets, i);
      if quiet {
        RoundIsQuiet(roots, id, targets, base, before, seen, i);
      }
      var captured, got := CaptureOne(fs, roots, sha, targets[i], id, steps, TargetsOf(targets), quiet);
      RoundIsCapture(roots, id, targets[i], base, before, journal, fs.journal, n);
      OwnDirsMore(roots, base, before, fs.state);
      OwnDirsMore(roots, start, before, fs.state);
      if quiet {
        TargetsStayMore(roots, id, TargetsOf(targets), base, before, fs.state);
      }
      if captured.Failure? {
        StillNoManifest(roots, id, base, before, fs.state);
        return Failure(captured.error), seen;
      }
      CaptureGrows(
        roots, sha, id, steps, targets, i, base, before, fs.state, journal, fs.journal, n, seen, entries, got);
      if quiet {
        SeenAgrees(
          roots, sha, id, steps, targets, i, base, before, journal, n, seen, entries, Looked(targets[i], got));
      }
      entries := entries + [captured.value];
      seen := seen + Looked(targets[i], got);
    }
    NotYetStored(roots, sha, id, steps, targets, |targets|, base, fs.state, fs.journal, n, seen, entries);
    assert targets[..|targets|] == targets;
    return Success(entries), seen;
  }

  lemma MemberOfTargets(targets: seq<Path>, i: nat)
    requires i < |targets|
    ensures targets[i] in TargetsOf(targets)
    ensures (forall t | t in TargetsOf(targets) :: t in targets)
  {
  }

  lemma OwnDirsSame(roots: Roots, d: Disk)
    ensures OwnDirsStay(roots, d, d)
  {
  }

  lemma OwnDirsMore(roots: Roots, a: Disk, b: Disk, c: Disk)
    requires OwnDirsStay(roots, a, b) && OwnDirsStay(roots, b, c)
    ensures OwnDirsStay(roots, a, c)
  {
  }

  lemma SeenAgrees(
    roots: Roots, sha: Contents -> Digest, id: string, steps: seq<PlannedStep>, targets: seq<Path>, i: nat,
    base: Disk, before: Disk, journal: seq<Event>, n: nat, seen: map<Path, Contents>, entries: seq<SnapshotEntry>,
    look: map<Path, Contents>)
    requires i < |targets| && Distinct(targets)
    requires CaptureProgress(roots, sha, id, steps, targets, i, base, before, journal, n, seen, entries)
    requires forall t | t in targets[..i] :: Agree(seen, base.files, t)
    requires look.Keys <= {targets[i]} && Agree(look, before.files, targets[i]) && Same(base, before, targets[i])
    ensures forall t | t in targets[..i + 1] :: Agree(seen + look, base.files, t)
  {
    assert targets[..i + 1] == targets[..i] + [targets[i]];
    assert targets[i] !in targets[..i];
    forall t | t in targets[..i + 1] ensures Agree(seen + look, base.files, t) {
      if t in targets[..i] {
        assert Agree(seen, base.files, t);
      }
    }
  }

  /**
   * Takes a snapshot. Whatever others do meanwhile, there is a manifest on disk only if every entry
   * and backup is; they are for what the capture saw of each target when it looked.
   */
  method CaptureWithId(
    fs: FileSystem, roots: Roots, sha: Contents -> Digest, plan: Plan, host: SystemProfile, id: string)
    returns (r: Outcome<Error>, ghost seen: map<Path, Contents>)
    requires roots == fs.reserved && FreshId(fs.state, roots, id)
    requires forall t | t in Targets(plan.steps) :: !roots.Protected(t)
    modifies fs
    ensures fs.Advances()
    ensures OwnOutside(roots, roots.SnapshotDir(id), old(fs.state), fs.state)
    ensures OwnDirsStay(roots, old(fs.state), fs.state)
    ensures r.Pass? ==> Captured(fs.state, seen, roots, sha, plan, host, id)
    ensures r.Fail? ==> !HasManifest(fs.state, roots, id)
    ensures r.Pass? ==> roots.SnapshotDir(id) in fs.state.dirs
    ensures r.Pass? ==> forall t | t in Targets(plan.steps) :: SeenAt(fs.journal, |old(fs.journal)|, seen, t)
    ensures CaptureEvents(roots, id, old(fs.state), fs.journal, |old(fs.journal)|)
    ensures old(fs.Quiet(TargetsOf(Targets(plan.steps)))) ==>
      && fs.Quiet(TargetsOf(Targets(plan.steps)))
      && TargetsStay(roots, id, TargetsOf(Targets(plan.steps)), old(fs.state), fs.state)
      && (r.Pass? ==> forall t | t in Targets(plan.steps) :: Agree(seen, old(fs.state).files, t))
      && (old(fs.Calm()) && Capturable(old(fs.state), roots, id, Targets(plan.steps)) ==> r.Pass?)
  {
    hide FileSystem.OnRecord, CaptureProgress, CaptureEvents, TargetsStay, OwnFiles, OwnOutside, OwnDirsStay, SeenAt;
    hide Same, DirHolds;
    hide TargetsOf, Targets, Capturable, Sanitize, CaptureEntries, FreshId, Distinct, RestoreActions, Backups;
    hide Merged, SameOwn, Roots.Protected, CaptureEvent;
    seen := map[];
    ghost var base, journal, found := fs.state, fs.journal, fs.Found();
    ghost var n, all := |journal|, TargetsOf(Targets(plan.steps));
    ghost var quiet := fs.Quiet(all);
    var snapshotDir, manifestPath := roots.SnapshotDir(id), roots.ManifestPath(id);
    var filesDir := snapshotDir + [FILES_SUBDIR];
    assert Under(snapshotDir, manifestPath) && manifestPath[..|manifestPath| - 1] == snapshotDir;
    r := fs.CreateDirAll(filesDir);
    FirstOperation(roots, id, all, quiet, base, found, fs.state, journal);
    if r.Fail? {
      return;
    }
    AncestorsAt(filesDir, |snapshotDir|);
    assert filesDir[..|snapshotDir|] == snapshotDir;
    var actions, _ := DeriveRestoreActions(plan, host);
    var targets := CollectTargets(plan.steps);
    TargetsAreDistinct(plan.steps);
    ghost var made := fs.state;
    var entries;
    entries, seen := CaptureAll(fs, roots, sha, targets, id, plan.steps, base, n, quiet);
    if entries.Failure? {
      return Fail(entries.error), seen;
    }
    ghost var stored, before, ready := fs.state, fs.journal, fs.Found();
    GapIsUndisturbed(roots, id, all, quiet, stored, ready, ready);
    StoredFacts(roots, id, all, quiet, stored, ready);
    StillNoManifest(roots, id, base, stored, ready);
    OwnDirsMore(roots, base, stored, ready);
    OwnDirsMore(roots, made, stored, ready);
    OwnPath(roots, id, made, ready);
    var manifest := SnapshotManifest(id, entries.value, actions);
    r := fs.WriteAtomic(manifestPath, ManifestFile(manifest));
    ManifestLogged(
      roots, id, base, ready, before, n, Event(ready, fs.state, if r.Pass? then Some(manifestPath) else None));
    if quiet {
      TargetsStayMore(roots, id, all, base, stored, ready);
    }
    if r.Pass? {
      assert targets[..|targets|] == targets;
      ManifestCompletes(roots, id, plan, host, sha, base, stored, ready, fs.state, seen, before, n, entries.value);
      forall t | t in Targets(plan.steps) ensures SeenAt(fs.journal, n, seen, t) {
        SeenByProgress(roots, id, plan, sha, base, stored, seen, before, n, entries.value, t);
        SeenStays(before, fs.journal, n, seen, t);
      }
      if quiet {
        HostStays(roots, id, Targets(plan.steps), base, ready, fs.state);
      }
    }
  }

  /** Making the directory of the backups. */
  lemma FirstOperation(
    roots: Roots, id: string, targets: set<Path>, quiet: bool, base: Disk, found: Disk, after: Disk,
    journal: seq<Event>)
    requires SameOwn(roots, base, found) && (quiet ==> HandsOff(targets, base, found))
    requires FreshId(base, roots, id) && after.files == found.files
    requires found.dirs <= after.dirs <= found.dirs + Ancestors(roots.SnapshotDir(id) + [FILES_SUBDIR])
    ensures OwnFiles(roots, base, after) && OwnDirsStay(roots, base, after) && !HasManifest(after, roots, id)
    ensures OwnOutside(roots, roots.SnapshotDir(id), base, after)
    ensures quiet ==> TargetsStay(roots, id, targets, base, after)
    ensures CaptureEvents(roots, id, base, journal + [Event(found, after, None)], |journal|)
  {
    GapIsUndisturbed(roots, id, targets, quiet, base, found, after);
    assert Under(roots.SnapshotDir(id), roots.ManifestPath(id));
    forall p | roots.Protected(p) && !Under(roots.SnapshotDir(id), p) ensures Same(base, base, p) {
    }
    StillNoManifest(roots, id, base, base, after);
    StillNoManifest(roots, id, base, base, found);
    assert CaptureEvent(roots, id, base, Event(found, after, None));
  }

  lemma OwnPath(roots: Roots, id: string, made: Disk, ready: Disk)
    requires OwnDirsStay(roots, made, ready)
    ensures roots.SnapshotDir(id) in made.dirs ==> roots.SnapshotDir(id) in ready.dirs
  {
    assert Under(roots.snapshots, roots.SnapshotDir(id));
  }

  lemma ManifestLogged(
    roots: Roots, id: string, base: Disk, ready: Disk, journal: seq<Event>, n: nat, e: Event)
    requires n <= |journal| && CaptureEvents(roots, id, base, journal, n)
    requires OwnOutside(roots, roots.SnapshotDir(id), base, ready) && !HasManifest(ready, roots, id)
    requires e.before == ready && e.path in {None, Some(roots.ManifestPath(id))}
    ensures CaptureEvents(roots, id, base, journal + [e], n)
  {
    assert Under(roots.SnapshotDir(id), roots.ManifestPath(id));
    forall k | n <= k < |journal + [e]| ensures CaptureEvent(roots, id, base, (journal + [e])[k]) {
      if k < |journal| {
        assert (journal + [e])[k] == journal[k];
      }
    }
  }

  /** The manifest write is the last: with it the snapshot directory is complete. */
  lemma ManifestCompletes(
    roots: Roots, id: string, plan: Plan, host: SystemProfile, sha: Contents -> Digest, base: Disk, stored: Disk,
    ready: Disk, d: Disk, seen: map<Path, Contents>, journal: seq<Event>, n: nat, entries: seq<SnapshotEntry>)
    requires var targets := Targets(plan.steps);
      CaptureProgress(roots, sha, id, plan.steps, targets, |targets|, base, stored, journal, n, seen, entries)
    requires OwnFiles(roots, stored, ready) && OwnOutside(roots, roots.SnapshotDir(id), base, ready)
    requires OwnDirsStay(roots, base, ready)
    requires d == ready.(files := ready.files[roots.ManifestPath(id) :=
      ManifestFile(SnapshotManifest(
        id, entries, RestoreActions(plan.steps, host) + (if plan.requiresReboot then [RecommendReboot] else [])))])
    ensures Captured(d, seen, roots, sha, plan, host, id)
    ensures OwnOutside(roots, roots.SnapshotDir(id), base, d) && OwnDirsStay(roots, base, d)
  {
    hide Targets, CaptureEntries, Backups, RestoreActions, CaptureEvents, SeenAt;
    var targets := Targets(plan.steps);
    assert targets[..|targets|] == targets;
    var mp := roots.ManifestPath(id);
    assert Under(roots.snapshots, roots.SnapshotDir(id)) && Under(roots.SnapshotDir(id), mp);
    var stock := Backups(seen, roots, id, targets);
    forall p | Under(roots.SnapshotDir(id), p)
      ensures (p in d.files <==> p in stock[mp := d.files[mp]])
      ensures p in d.files ==> d.files[p] == stock[mp := d.files[mp]][p]
    {
      assert roots.Protected(p);
      assert Same(stored, ready, p);
    }
  }

  lemma SeenByProgress(
    roots: Roots, id: string, plan: Plan, sha: Contents -> Digest, base: Disk, stored: Disk,
    seen: map<Path, Contents>, journal: seq<Event>, n: nat, entries: seq<SnapshotEntry>, t: Path)
    requires var targets := Targets(plan.steps);
      CaptureProgress(roots, sha, id, plan.steps, targets, |targets|, base, stored, journal, n, seen, entries)
    requires t in Targets(plan.steps)
    ensures SeenAt(journal, n, seen, t)
  {
    var targets := Targets(plan.steps);
    assert targets[..|targets|] == targets;
  }

  lemma HostStays(roots: Roots, id: string, targets: seq<Path>, base: Disk, ready: Disk, d: Disk)
    requires TargetsStay(roots, id, TargetsOf(targets), base, ready)
    requires d.dirs == ready.dirs && forall p | p != roots.ManifestPath(id) :: Same(ready, d, p)
    requires forall t | t in targets :: !roots.Protected(t)
    ensures TargetsStay(roots, id, TargetsOf(targets), base, d)
  {
    assert Under(roots.snapshots, roots.ManifestPath(id));
    forall t | t in TargetsOf(targets) ensures Same(base, d, t) {
      SameTransitive(base, ready, d, t);
    }
  }

  /** What a capture saw it saw before any host file was written. */
  lemma SeenIsFirst(
    roots: Roots, id: string, base: Disk, journal: seq<Event>, more: seq<Event>, n: nat, seen: map<Path, Contents>,
    t: Path)
    requires journal <= more && CaptureEvents(roots, id, base, journal, n) && SeenAt(journal, n, seen, t)
    ensures SeenFirst(roots, more, n, seen, t)
  {
    var k :| n <= k < |journal| && Agree(seen, journal[k].before.files, t);
    forall i | n <= i < k && more[i].path.Some? ensures roots.Protected(more[i].path.value) {
      assert more[i] == journal[i];
      assert CaptureEvent(roots, id, base, journal[i]);
      assert Under(roots.snapshots, roots.SnapshotDir(id));
    }
    assert more[k] == journal[k];
  }
}
