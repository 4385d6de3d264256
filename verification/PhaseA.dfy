/** Phase A: capture, then the edits, then the pending record. */
module PhaseA {
  import opened Wrappers
  import opened Paths
  import opened Records
  import opened Manifest
  import opened Store
  import opened Layout
  import opened Capture
  import opened AtomicWrite
  import opened Session
  import opened HostWrites
  import opened Staging
  import opened KernelParams
  import opened Sorting
  import opened Planner
  import opened PhaseAEdits

  // ----- the whole phase -----

  predicate IsEdit(kind: StepKind) {
    kind == BootloaderWrite || kind == VfioConfig || kind == InitramfsWrite
  }

  function EditKinds(steps: seq<PlannedStep>): seq<StepKind> {
    if steps == [] then []
    else
      var last := steps[|steps| - 1];
      EditKinds(steps[..|steps| - 1]) + (if IsEdit(last.kind) then [last.kind] else [])
  }

  lemma EditKindsAre(steps: seq<PlannedStep>)
    ensures Selects(steps, {BootloaderWrite, VfioConfig, InitramfsWrite}, EditKinds(steps))
    ensures forall kind :: kind in EditKinds(steps) <==> IsEdit(kind) && exists s :: s in steps && s.kind == kind
  {
    hide Selects;
    var chosen := {BootloaderWrite, VfioConfig, InitramfsWrite};
    if steps == [] {
      SelectsNone(chosen);
    } else {
      var n := |steps| - 1;
      EditKindsAre(steps[..n]);
      SelectsMore(steps[..n], steps[n], chosen, EditKinds(steps[..n]));
      assert steps == steps[..n] + [steps[n]];
    }
  }

  ghost function EditedPaths(steps: seq<PlannedStep>): set<Path> {
    set j | 0 <= j < |steps| && IsEdit(steps[j].kind) && steps[j].touches != [] :: steps[j].touches[0]
  }

  /** No two edits of a plan are of the same file. */
  ghost predicate DistinctEdits(steps: seq<PlannedStep>) {
    forall j, k | 0 <= j < k < |steps| && IsEdit(steps[j].kind) && IsEdit(steps[k].kind)
        && steps[j].touches != [] && steps[k].touches != [] ::
      steps[j].touches[0] != steps[k].touches[0]
  }

  /** Every edit has left its text, derived from what the files held at the start, and its digest is in the manifest. */
  ghost predicate AllDone(
    steps: seq<PlannedStep>, host: SystemProfile, config: PassthroughConfig, sha: Contents -> Digest, base: Disk,
    d: Disk, m: SnapshotManifest, exact: bool)
  {
    forall j | 0 <= j < |steps| && IsEdit(steps[j].kind) :: EditDone(steps[j], host, config, sha, base, d, m, exact)
  }

  /** Every edit can be made from what the files held at the start. */
  ghost predicate AllEditable(steps: seq<PlannedStep>, host: SystemProfile, config: PassthroughConfig, d: Disk) {
    DistinctEdits(steps) && forall j | 0 <= j < |steps| && IsEdit(steps[j].kind) :: Editable(steps[j], host, config, d)
  }

  lemma WroteLater(
    step: PlannedStep, host: SystemProfile, config: PassthroughConfig, base: Disk, before: Disk, d: Disk,
    later: Disk)
    requires Wrote(step, host, config, before, d)
    requires Same(base, before, step.touches[0]) && Same(d, later, step.touches[0])
    ensures Wrote(step, host, config, base, later)
  {
  }

  lemma EditDoneLater(
    run: Run, step: PlannedStep, host: SystemProfile, config: PassthroughConfig, sha: Contents -> Digest, base: Disk,
    d: Disk, later: Disk, m: SnapshotManifest, mLater: SnapshotManifest, paths: set<Path>, exact: bool)
    requires EditDone(step, host, config, sha, base, d, m, exact) && StepEffect(run, d, later, m, mLater, paths)
    requires run.quiet && step.touches[0] !in paths && step.touches[0] in run.scope
    ensures EditDone(step, host, config, sha, base, later, mLater, exact)
  {
    hide StepText, StepEffect;
    assert step.touches[0] in run.Known();
    RecordedAcross(run, d, later, sha, m, mLater, paths, Write(step.touches[0], d.files[step.touches[0]]));
    EffectIsOpen(run, d, later, m, mLater, paths);
    assert Same(d, later, step.touches[0]);
  }

  lemma EditDoneFrom(
    step: PlannedStep, host: SystemProfile, config: PassthroughConfig, sha: Contents -> Digest, base: Disk,
    before: Disk, d: Disk, m: SnapshotManifest, exact: bool)
    requires EditDone(step, host, config, sha, before, d, m, exact) && Same(base, before, step.touches[0])
    ensures EditDone(step, host, config, sha, base, d, m, exact)
  {
    hide RecordedOne;
    if exact {
      WroteLater(step, host, config, base, before, d, d);
    }
  }

  lemma EditDoneWeaker(
    step: PlannedStep, host: SystemProfile, config: PassthroughConfig, sha: Contents -> Digest, base: Disk, d: Disk,
    m: SnapshotManifest, exact: bool, weaker: bool)
    requires EditDone(step, host, config, sha, base, d, m, exact) && (weaker ==> exact)
    ensures EditDone(step, host, config, sha, base, d, m, weaker)
  {
  }

  lemma AllDoneWeaker(
    steps: seq<PlannedStep>, host: SystemProfile, config: PassthroughConfig, sha: Contents -> Digest, base: Disk,
    d: Disk, m: SnapshotManifest, exact: bool, weaker: bool)
    requires AllDone(steps, host, config, sha, base, d, m, exact) && (weaker ==> exact)
    ensures AllDone(steps, host, config, sha, base, d, m, weaker)
  {
  }

  lemma AllDoneStep(
    steps: seq<PlannedStep>, i: nat, host: SystemProfile, config: PassthroughConfig, sha: Contents -> Digest, run: Run,
    base: Disk, before: Disk, d: Disk, m0: SnapshotManifest, mBefore: SnapshotManifest, m: SnapshotManifest,
    exact: bool)
    requires i < |steps| && DistinctEdits(steps) && IsEdit(steps[i].kind) && run.quiet
    requires forall j, t | 0 <= j < |steps| && steps[j].kind != Snapshot && t in steps[j].touches :: t in run.scope
    requires AllDone(steps[..i], host, config, sha, base, before, mBefore, exact)
    requires EditDone(steps[i], host, config, sha, before, d, m, exact)
    requires StepEffect(run, base, before, m0, mBefore, EditedPaths(steps[..i]))
    requires StepEffect(run, before, d, mBefore, m, FirstTouch(steps[i]))
    ensures AllDone(steps[..i + 1], host, config, sha, base, d, m, exact)
  {
    hide StepText, StepEffect, RecordedOne, Wrote;
    forall j | 0 <= j <= i && IsEdit(steps[j].kind) ensures EditDone(steps[j], host, config, sha, base, d, m, exact) {
      if j < i {
        assert steps[..i][j] == steps[j];
        assert steps[j].touches[0] in steps[j].touches;
        EditDoneLater(run, steps[j], host, config, sha, base, before, d, mBefore, m, FirstTouch(steps[i]), exact);
      } else {
        assert steps[i].touches[0] in steps[i].touches;
        NotEditedYet(steps, i, run, base, before, m0, mBefore);
        EditDoneFrom(steps[i], host, config, sha, base, before, d, m, exact);
      }
    }
  }

  /** Until its turn comes, an edit's target is as at the start. */
  lemma NotEditedYet(
    steps: seq<PlannedStep>, i: nat, run: Run, base: Disk, before: Disk, m0: SnapshotManifest,
    mBefore: SnapshotManifest)
    requires i < |steps| && DistinctEdits(steps) && IsEdit(steps[i].kind) && steps[i].touches != []
    requires run.quiet && steps[i].touches[0] in run.scope
    requires StepEffect(run, base, before, m0, mBefore, EditedPaths(steps[..i]))
    ensures Same(base, before, steps[i].touches[0]) && steps[i].touches[0] !in EditedPaths(steps[..i])
    ensures base.dirs <= before.dirs
  {
    hide StepEffect;
    assert steps[i].touches[0] in run.Known();
    EffectIsOpen(run, base, before, m0, mBefore, EditedPaths(steps[..i]));
    assert forall j | 0 <= j < i :: steps[..i][j] == steps[j];
  }

  lemma CanEditNow(
    steps: seq<PlannedStep>, i: nat, host: SystemProfile, config: PassthroughConfig, sha: Contents -> Digest, run: Run,
    base: Disk, before: Disk, m0: SnapshotManifest, mBefore: SnapshotManifest)
    requires i < |steps| && AllEditable(steps, host, config, base) && IsEdit(steps[i].kind) && run.quiet
    requires StepReady(run, base, steps[i]) && HasManifest(base, run.roots, run.id)
    requires forall t | t in steps[i].touches :: WriteAllowed(base, sha, m0, t)
    requires StepEffect(run, base, before, m0, mBefore, EditedPaths(steps[..i]))
    ensures CanEdit(steps[i], host, config, sha, before, mBefore)
  {
    hide StepEffect;
    var t := steps[i].touches[0];
    assert Editable(steps[i], host, config, base) && t in steps[i].touches && run.MayWrite(base, t);
    assert t in run.Known();
    NotEditedYet(steps, i, run, base, before, m0, mBefore);
    WriteAllowedAcross(run, base, before, sha, m0, mBefore, EditedPaths(steps[..i]), t);
    TextDependsOnTarget(steps[i], host, config, base, before);
  }

  lemma TextDependsOnTarget(step: PlannedStep, host: SystemProfile, config: PassthroughConfig, d: Disk, later: Disk)
    requires step.touches != [] && Same(d, later, step.touches[0])
    ensures StepText(step, host, config, d.files) == StepText(step, host, config, later.files)
  {
  }

  method RunEditStep(
    fs: FileSystem, sha: Contents -> Digest, step: PlannedStep, host: SystemProfile, config: PassthroughConfig,
    m: SnapshotManifest, ghost run: Run)
    returns (r: Outcome<Error>, mLater: SnapshotManifest)
    requires IsEdit(step.kind) && StepReady(run, fs.state, step)
    requires run.Uses(fs, sha) && run.Open(fs.state, m) && run.Guarded(fs.journal) && run.covered
    modifies fs
    ensures fs.Advances() && run.Uses(fs, sha) && run.Guarded(fs.journal)
    ensures StepEffect(run, old(fs.state), fs.state, m, mLater, FirstTouch(step))
    ensures ManifestOf(fs.state, run.roots, run.id) == ManifestOf(old(fs.state), run.roots, run.id)
    ensures r.Pass? && run.quiet ==>
      EditDone(step, host, config, sha, old(fs.state), fs.state, mLater, ReadsExactly(host, old(fs.Calm())))
    ensures r.Pass? ==> step.touches != [] && Logged(fs.journal, |old(fs.journal)|, step.touches[0])
    ensures run.quiet && old(fs.Calm()) && CanEdit(step, host, config, sha, old(fs.state), m) ==> r.Pass?
    ensures old(fs.Calm()) && r.Fail? && Doable(step, host, config)
            && AlwaysWorkable(run, step, host, config, fs.journal, |old(fs.journal)|)
            ==> r.error.HashMismatch?
  {
    hide FileSystem.OnRecord, StepEffect, Wrote, StepReady, Run.Open, Run.Guarded, Run.Uses, AlwaysWorkable, Doable;
    hide Logged, CanEdit;
    match step.kind {
      case BootloaderWrite => r, mLater := RunBootloaderStep(fs, sha, step, host, config, m, run);
      case VfioConfig => r, mLater := RunVfioStep(fs, sha, step, host, config, m, run);
      case InitramfsWrite => r, mLater := RunInitramfsStep(fs, sha, step, host, config, m, run);
    }
  }

  /** The first `i` steps have been carried out. */
  ghost predicate EditProgress(
    run: Run, steps: seq<PlannedStep>, i: nat, host: SystemProfile, config: PassthroughConfig, sha: Contents -> Digest,
    start: Disk, d: Disk, m0: SnapshotManifest, m: SnapshotManifest, exact: bool)
    requires i <= |steps|
  {
    && StepEffect(run, start, d, m0, m, EditedPaths(steps[..i]))
    && (run.quiet && DistinctEdits(steps) ==> AllDone(steps[..i], host, config, sha, start, d, m, exact))
  }

  lemma ProgressStarts(
    run: Run, steps: seq<PlannedStep>, host: SystemProfile, config: PassthroughConfig, sha: Contents -> Digest, d: Disk,
    m: SnapshotManifest, exact: bool)
    requires run.Open(d, m)
    ensures EditProgress(run, steps, 0, host, config, sha, d, d, m, m, exact)
  {
    hide StepEffect, EditDone;
    StepEffectNone(run, d, m, {});
    NothingEdited(host, config, sha, d, m, exact);
    assert steps[..0] == [];
  }

  lemma ProgressSkips(
    run: Run, steps: seq<PlannedStep>, i: nat, host: SystemProfile, config: PassthroughConfig, sha: Contents -> Digest,
    start: Disk, d: Disk, m0: SnapshotManifest, m: SnapshotManifest, exact: bool)
    requires i < |steps| && !IsEdit(steps[i].kind)
    requires EditProgress(run, steps, i, host, config, sha, start, d, m0, m, exact)
    ensures EditProgress(run, steps, i + 1, host, config, sha, start, d, m0, m, exact)
  {
    hide StepEffect, EditDone, EditedPaths, AllDone;
    EditedSnoc(steps, i);
    assert steps[..i + 1] == steps[..i] + [steps[i]];
    NotDone(steps[..i], steps[i], host, config, sha, start, d, m, exact);
    assert EditedPaths(steps[..i]) + {} == EditedPaths(steps[..i]);
  }

  /** From `n` on, every one of these edits has written its file. */
  ghost predicate AllLogged(steps: seq<PlannedStep>, journal: seq<Event>, n: nat) {
    forall j | 0 <= j < |steps| && IsEdit(steps[j].kind) ::
      steps[j].touches != [] && Logged(journal, n, steps[j].touches[0])
  }

  /** Every edit could be made of what the operations from `n` on found, but for changed contents. */
  ghost predicate AllWorkable(
    roots: Roots, id: string, steps: seq<PlannedStep>, host: SystemProfile, config: PassthroughConfig,
    journal: seq<Event>, n: nat)
  {
    n < |journal| && forall k, j | n <= k < |journal| && 0 <= j < |steps| && IsEdit(steps[j].kind) ::
      Workable(roots, id, steps[j], host, config, journal[k].before)
  }

  lemma WorkableStep(
    run: Run, steps: seq<PlannedStep>, j: nat, host: SystemProfile, config: PassthroughConfig, journal: seq<Event>,
    n: nat, later: nat)
    requires AllWorkable(run.roots, run.id, steps, host, config, journal, n) && n <= later
    requires j < |steps| && IsEdit(steps[j].kind)
    ensures Doable(steps[j], host, config) && AlwaysWorkable(run, steps[j], host, config, journal, later)
  {
    assert Workable(run.roots, run.id, steps[j], host, config, journal[n].before);
  }

  lemma LoggedSnoc(steps: seq<PlannedStep>, i: nat, journal: seq<Event>, more: seq<Event>, n: nat)
    requires i < |steps| && n <= |journal| && journal <= more && AllLogged(steps[..i], journal, n)
    requires IsEdit(steps[i].kind) ==> steps[i].touches != [] && Logged(more, |journal|, steps[i].touches[0])
    ensures AllLogged(steps[..i + 1], more, n)
  {
    var ahead := steps[..i + 1];
    forall j | 0 <= j < |ahead| && IsEdit(ahead[j].kind)
      ensures ahead[j].touches != [] && Logged(more, n, ahead[j].touches[0])
    {
      if j < i {
        assert steps[..i][j] == ahead[j];
        StaysLogged(journal, more, n, n, ahead[j].touches[0]);
      } else {
        StaysLogged(more, more, |journal|, n, ahead[j].touches[0]);
      }
    }
  }

  lemma StaysLogged(journal: seq<Event>, more: seq<Event>, n: nat, sooner: nat, t: Path)
    requires Logged(journal, n, t) && journal <= more && sooner <= n
    ensures Logged(more, sooner, t)
  {
    var k :| n <= k < |journal| && journal[k].path == Some(t);
    assert more[k] == journal[k];
  }

  /** One step of the loop. */
  method RunEditAt(
    fs: FileSystem, sha: Contents -> Digest, steps: seq<PlannedStep>, i: nat, host: SystemProfile,
    config: PassthroughConfig, m: SnapshotManifest, ghost run: Run, ghost start: Disk, ghost m0: SnapshotManifest,
    ghost exact: bool, ghost n: nat)
    returns (r: Outcome<Error>, mLater: SnapshotManifest)
    requires i < |steps| && IsEdit(steps[i].kind) && n <= |fs.journal|
    requires EditProgress(run, steps, i, host, config, sha, start, fs.state, m0, m, exact)
    requires HasManifest(start, run.roots, run.id) && run.Open(start, m0)
    requires forall j | 0 <= j < |steps| && steps[j].kind != Snapshot :: StepReady(run, start, steps[j])
    requires run.Uses(fs, sha) && run.Guarded(fs.journal) && (exact ==> ReadsExactly(host, fs.Calm())) && run.covered
    requires ManifestOf(fs.state, run.roots, run.id) == ManifestOf(start, run.roots, run.id)
    modifies fs
    ensures fs.Advances() && run.Uses(fs, sha) && run.Guarded(fs.journal)
    ensures StepEffect(run, start, fs.state, m0, mLater, EditedPaths(steps))
    ensures ManifestOf(fs.state, run.roots, run.id) == ManifestOf(start, run.roots, run.id)
    ensures r.Pass? ==> EditProgress(run, steps, i + 1, host, config, sha, start, fs.state, m0, mLater, exact)
    ensures r.Pass? ==> steps[i].touches != [] && Logged(fs.journal, |old(fs.journal)|, steps[i].touches[0])
    ensures run.quiet && old(fs.Calm()) && AllEditable(steps, host, config, start)
            && AllowedAtStart(steps, sha, start, m0)
            ==> r.Pass?
    ensures old(fs.Calm()) && r.Fail? && AllWorkable(run.roots, run.id, steps, host, config, fs.journal, n) ==>
      r.error.HashMismatch?
  {
    hide FileSystem.OnRecord, StepEffect, Wrote, EditedPaths, StepReady, FirstTouch, AllDone, EditDone, DistinctEdits;
    hide AllEditable;
    hide AllowedAtStart, Editable, CanEdit, Run.Open, Run.Guarded, Run.Uses, ReadsExactly, AllWorkable, Logged;
    hide AlwaysWorkable, Doable;
    var step := steps[i];
    ghost var done, before, journal := steps[..i], fs.state, fs.journal;
    EditedSnoc(steps, i);
    EffectIsOpen(run, start, before, m0, m, EditedPaths(done));
    StepReadyAcross(run, start, before, m0, m, EditedPaths(done), step);
    if run.quiet && AllEditable(steps, host, config, start) && AllowedAtStart(steps, sha, start, m0) {
      AllowedStep(steps, i, sha, start, m0);
      CanEditNow(steps, i, host, config, sha, run, start, before, m0, m);
    }
    ghost var nowExact := ReadsExactly(host, fs.Calm());
    r, mLater := RunEditStep(fs, sha, step, host, config, m, run);
    StepEffectTransitive(run, start, before, fs.state, m0, m, mLater, EditedPaths(done), FirstTouch(step));
    StepEffectWiden(run, start, fs.state, m0, mLater, EditedPaths(steps[..i + 1]), EditedPaths(steps));
    if AllWorkable(run.roots, run.id, steps, host, config, fs.journal, n) {
      WorkableStep(run, steps, i, host, config, fs.journal, n, |journal|);
    }
    if r.Pass? && run.quiet && DistinctEdits(steps) {
      EditsInScope(run, start, steps);
      EditDoneWeaker(step, host, config, sha, before, fs.state, mLater, nowExact, exact);
      AllDoneStep(steps, i, host, config, sha, run, start, before, fs.state, m0, m, mLater, exact);
    }
  }

  /** The edit loop. */
  method RunEdits(
    fs: FileSystem, sha: Contents -> Digest, steps: seq<PlannedStep>, host: SystemProfile, config: PassthroughConfig,
    m: SnapshotManifest, ghost run: Run, ghost n: nat)
    returns (r: Outcome<Error>, mLater: SnapshotManifest, completed: seq<StepKind>)
    requires run.Uses(fs, sha) && run.Open(fs.state, m) && run.Guarded(fs.journal) && run.covered
    requires forall j | 0 <= j < |steps| && steps[j].kind != Snapshot :: StepReady(run, fs.state, steps[j])
    requires n <= |fs.journal|
    modifies fs
    ensures fs.Advances() && run.Uses(fs, sha) && run.Guarded(fs.journal)
    ensures StepEffect(run, old(fs.state), fs.state, m, mLater, EditedPaths(steps))
    ensures ManifestOf(fs.state, run.roots, run.id) == ManifestOf(old(fs.state), run.roots, run.id)
    ensures r.Pass? ==> completed == [Snapshot] + EditKinds(steps)
    ensures r.Pass? ==> AllLogged(steps, fs.journal, |old(fs.journal)|)
    ensures r.Pass? && run.quiet && DistinctEdits(steps) ==>
      AllDone(steps, host, config, sha, old(fs.state), fs.state, mLater, ReadsExactly(host, old(fs.Calm())))
    ensures run.quiet && old(fs.Calm()) && AllEditable(steps, host, config, old(fs.state))
            && AllowedAtStart(steps, sha, old(fs.state), m)
            ==> r.Pass?
    ensures old(fs.Calm()) && r.Fail? && AllWorkable(run.roots, run.id, steps, host, config, fs.journal, n) ==>
      r.error.HashMismatch?
  {
    hide FileSystem.OnRecord, StepEffect, EditedPaths, StepReady, AllDone, DistinctEdits, AllEditable, AllowedAtStart;
    hide Run.Guarded;
    hide EditKinds, Run.Uses, AllLogged, AllWorkable, Logged;
    hide Keeps, AddsNothing, Extends;
    ghost var exact, start := ReadsExactly(host, fs.Calm()), fs.state;
    ghost var journal := fs.journal;
    mLater := m;
    completed := [Snapshot];
    ProgressStarts(run, steps, host, config, sha, start, m, exact);
    NoEditKinds();
    NothingLogged(journal);
    assert steps[..0] == [];
    for i := 0 to |steps|
      invariant fs.Advances() && run.Uses(fs, sha) && run.Guarded(fs.journal)
      invariant EditProgress(run, steps, i, host, config, sha, start, fs.state, m, mLater, exact)
      invariant HasManifest(fs.state, run.roots, run.id)
      invariant ManifestOf(fs.state, run.roots, run.id) == ManifestOf(start, run.roots, run.id)
      invariant completed == [Snapshot] + EditKinds(steps[..i])
      invariant AllLogged(steps[..i], fs.journal, |journal|)
    {
      var step := steps[i];
      assert steps[..i + 1] == steps[..i] + [step];
      EditKindsSnoc(steps[..i], step);
      ghost var before := fs.journal;
      if !IsEdit(step.kind) {
        ProgressSkips(run, steps, i, host, config, sha, start, fs.state, m, mLater, exact);
        LoggedSnoc(steps, i, before, before, |journal|);
        continue;
      }
      r, mLater := RunEditAt(fs, sha, steps, i, host, config, mLater, run, start, m, exact, n);
      if r.Fail? {
        return;
      }
      LoggedSnoc(steps, i, before, fs.journal, |journal|);
      completed := completed + [step.kind];
      EffectHasManifest(run, start, fs.state, m, mLater, EditedPaths(steps));
    }
    assert steps[..|steps|] == steps;
    r := Pass;
  }

  lemma NothingLogged(journal: seq<Event>)
    ensures AllLogged([], journal, |journal|)
  {
  }

  lemma EffectHasManifest(
    run: Run, d: Disk, later: Disk, m: SnapshotManifest, mLater: SnapshotManifest, paths: set<Path>)
    requires StepEffect(run, d, later, m, mLater, paths)
    ensures HasManifest(later, run.roots, run.id)
  {
  }

  /** Every target of an edit is as captured. */
  ghost predicate AllowedAtStart(steps: seq<PlannedStep>, sha: Contents -> Digest, d: Disk, m: SnapshotManifest) {
    forall j, t | 0 <= j < |steps| && IsEdit(steps[j].kind) && t in steps[j].touches :: WriteAllowed(d, sha, m, t)
  }

  lemma AllowedStep(steps: seq<PlannedStep>, i: nat, sha: Contents -> Digest, d: Disk, m: SnapshotManifest)
    requires i < |steps| && IsEdit(steps[i].kind) && AllowedAtStart(steps, sha, d, m)
    ensures forall t | t in steps[i].touches :: WriteAllowed(d, sha, m, t)
  {
  }

  lemma NotDone(
    done: seq<PlannedStep>, step: PlannedStep, host: SystemProfile, config: PassthroughConfig,
    sha: Contents -> Digest, base: Disk, d: Disk, m: SnapshotManifest, exact: bool)
    requires !IsEdit(step.kind)
    ensures AllDone(done, host, config, sha, base, d, m, exact) ==>
      AllDone(done + [step], host, config, sha, base, d, m, exact)
  {
  }

  lemma EditKindsSnoc(done: seq<PlannedStep>, step: PlannedStep)
    ensures EditKinds(done + [step]) == EditKinds(done) + (if IsEdit(step.kind) then [step.kind] else [])
  {
    assert (done + [step])[..|done|] == done;
  }

  lemma NoEditKinds()
    ensures EditKinds([]) == []
  {
  }

  lemma EditsInScope(run: Run, d: Disk, steps: seq<PlannedStep>)
    requires forall j | 0 <= j < |steps| && steps[j].kind != Snapshot :: StepReady(run, d, steps[j])
    ensures forall j, t | 0 <= j < |steps| && steps[j].kind != Snapshot && t in steps[j].touches :: t in run.scope
  {
    forall j, t | 0 <= j < |steps| && steps[j].kind != Snapshot && t in steps[j].touches ensures t in run.scope {
      assert StepReady(run, d, steps[j]);
    }
  }

  lemma NothingEdited(
    host: SystemProfile, config: PassthroughConfig, sha: Contents -> Digest, d: Disk, m: SnapshotManifest, exact: bool)
    ensures EditedPaths([]) == {} && AllDone([], host, config, sha, d, d, m, exact)
  {
  }

  lemma EditedSnoc(steps: seq<PlannedStep>, i: nat)
    requires i < |steps|
    ensures EditedPaths(steps[..i + 1]) ==
      EditedPaths(steps[..i]) + if IsEdit(steps[i].kind) then FirstTouch(steps[i]) else {}
    ensures EditedPaths(steps[..i + 1]) <= EditedPaths(steps)
  {
    assert forall j | 0 <= j < i :: steps[..i + 1][j] == steps[j] == steps[..i][j];
    assert steps[..i + 1][i] == steps[i];
    forall p | p in EditedPaths(steps[..i]) ensures p in EditedPaths(steps[..i + 1]) {
      var j :| 0 <= j < i && IsEdit(steps[..i][j].kind) && steps[..i][j].touches != [] && steps[..i][j].touches[0] == p;
      assert steps[..i + 1][j] == steps[j];
    }
  }

  /** The commands that make the boot loader and the initramfs take note of edited files are among these. */
  ghost predicate Regenerated(commands: seq<string>, host: SystemProfile, bootloader: bool, initramfs: bool) {
    && (bootloader && host.bootloader.kind == Grub2 ==> "grub-mkconfig -o /boot/grub/grub.cfg" in commands)
    && (bootloader && host.bootloader.kind == SystemdBoot ==> "bootctl update" in commands)
    && (initramfs && host.initramfs == Mkinitcpio ==> "mkinitcpio -P" in commands)
    && (initramfs && host.initramfs == Dracut ==> "dracut --force --regenerate-all" in commands)
    && (initramfs && host.initramfs == UpdateInitramfs ==> "update-initramfs -u -k all" in commands)
  }

  function RegenerateInitramfs(system: InitramfsSystem): string {
    match system
    case Mkinitcpio => "mkinitcpio -P"
    case Dracut => "dracut --force --regenerate-all"
    case UpdateInitramfs => "update-initramfs -u -k all"
    case UnknownInitramfs => ""
  }

  lemma BootloaderRegenerated(before: seq<string>, after: seq<string>, host: SystemProfile, bootloader: bool)
    requires before <= after
    requires bootloader && host.bootloader.kind == Grub2 ==> after == before + ["grub-mkconfig -o /boot/grub/grub.cfg"]
    requires bootloader && host.bootloader.kind == SystemdBoot ==> after == before + ["bootctl update"]
    ensures Regenerated(after[|before|..], host, bootloader, false)
  {
  }

  lemma InitramfsRegenerated(
    before: seq<string>, mid: seq<string>, after: seq<string>, host: SystemProfile, bootloader: bool)
    requires before <= mid && after == mid + [RegenerateInitramfs(host.initramfs)]
    requires Regenerated(mid[|before|..], host, bootloader, false)
    ensures Regenerated(after[|before|..], host, bootloader, true)
  {
    assert after[|before|..] == mid[|before|..] + [RegenerateInitramfs(host.initramfs)];
  }

  lemma NoInitramfs(commands: seq<string>, host: SystemProfile, bootloader: bool, initramfs: bool)
    requires Regenerated(commands, host, bootloader, false) && (initramfs ==> host.initramfs == UnknownInitramfs)
    ensures Regenerated(commands, host, bootloader, initramfs)
  {
  }

  lemma RegeneratedLater(
    earlier: seq<string>, before: seq<string>, after: seq<string>, later: seq<string>, host: SystemProfile,
    bootloader: bool, initramfs: bool)
    requires earlier <= before <= after <= later && Regenerated(after[|before|..], host, bootloader, initramfs)
    ensures Regenerated(later[|earlier|..], host, bootloader, initramfs)
  {
    forall c | c in after[|before|..] ensures c in later[|earlier|..] {
      var k :| 0 <= k < |after| - |before| && after[|before|..][k] == c;
      assert later[|earlier|..][|before| - |earlier| + k] == c;
    }
  }

  method RunRegenerateCommands(
    fs: FileSystem, host: SystemProfile, completed: seq<StepKind>, ghost run: Run, ghost m: SnapshotManifest)
    returns (r: Outcome<Error>)
    requires run.Uses(fs, run.sha) && run.Open(fs.state, m) && run.Guarded(fs.journal)
    modifies fs
    ensures fs.Advances() && run.Uses(fs, run.sha) && run.Guarded(fs.journal)
    ensures StepEffect(run, old(fs.state), fs.state, m, m, {})
    ensures ManifestOf(fs.state, run.roots, run.id) == ManifestOf(old(fs.state), run.roots, run.id)
    ensures old(fs.Calm()) ==> r.Pass?
    ensures r.Pass? ==>
      Regenerated(fs.commands[|old(fs.commands)|..], host, BootloaderWrite in completed, InitramfsWrite in completed)
    ensures |fs.commands| <= |old(fs.commands)|
      + (if BootloaderWrite in completed then 1 else 0) + (if InitramfsWrite in completed then 1 else 0)
  {
    hide FileSystem.OnRecord, StepEffect, Run.Open, Run.Guarded, StaysPut, Regenerated, RegenerateInitramfs;
    ghost var start := fs.state;
    StepEffectNone(run, start, m, {});
    if BootloaderWrite in completed {
      match host.bootloader.kind {
        case Grub2 =>
          r := HostCommand(fs, BootloaderWrite, "grub-mkconfig -o /boot/grub/grub.cfg", run, m);
          if r.Fail? {
            return;
          }
        case SystemdBoot =>
          // Best effort: a failed update does not stop Phase A.
          r := HostCommand(fs, BootloaderWrite, "bootctl update", run, m);
        case _ =>
      }
    }
    ghost var mid := fs.state;
    EffectIsOpen(run, start, mid, m, m, {});
    ghost var already, first := old(fs.commands), fs.commands;
    BootloaderRegenerated(already, first, host, BootloaderWrite in completed);
    if InitramfsWrite in completed && host.initramfs != UnknownInitramfs {
      r := HostCommand(fs, InitramfsWrite, RegenerateInitramfs(host.initramfs), run, m);
      TwoEffects(run, start, mid, fs.state, m);
      InitramfsRegenerated(already, first, fs.commands, host, BootloaderWrite in completed);
      return;
    }
    NoInitramfs(first[|already|..], host, BootloaderWrite in completed, InitramfsWrite in completed);
    return Pass;
  }

  lemma TwoEffects(run: Run, a: Disk, b: Disk, c: Disk, m: SnapshotManifest)
    requires StepEffect(run, a, b, m, m, {}) && StepEffect(run, b, c, m, m, {})
    ensures StepEffect(run, a, c, m, m, {})
  {
    hide StepEffect;
    var none: set<Path> := {};
    StepEffectTransitive(run, a, b, c, m, m, m, {}, {});
    assert none + none == none;
  }

  function BuildPendingPlan(plan: Plan, host: SystemProfile, config: PassthroughConfig, id: string): PendingPlan {
    PendingPlan(
      id,
      HostFingerprint(
        host.distroId, host.bootloader.kind, host.initramfs,
        CanonicalIds(config.gpuRoles, host.gpus), host.kernelCmdline),
      PhaseBSteps(plan.steps),
      config)
  }

  /** The steps of a plan that `at` points at, in order, are all those Phase A leaves for later. */
  ghost predicate Leaves(steps: seq<PlannedStep>, at: seq<nat>, left: seq<PlannedStep>) {
    && |at| == |left|
    && (forall j, k | 0 <= j < k < |at| :: at[j] < at[k])
    && (forall k | 0 <= k < |at| :: at[k] < |steps| && steps[at[k]] == left[k])
    && forall i: nat | i < |steps| ::
         i in at <==> steps[i].kind !in {Snapshot, BootloaderWrite, VfioConfig, InitramfsWrite}
  }

  /**
   * What the record of an apply says: the snapshot, the choices, the host as it was detected, the ids
   * of the passthrough devices in order, and the steps that are left.
   */
  ghost predicate Remembers(
    pending: PendingPlan, steps: seq<PlannedStep>, host: SystemProfile, config: PassthroughConfig, id: string)
  {
    && pending.snapshotId == id && pending.config == config
    && pending.fingerprint.distroId == host.distroId
    && pending.fingerprint.bootloader == host.bootloader.kind
    && pending.fingerprint.initramfs == host.initramfs
    && pending.fingerprint.kernelCmdlinePreApply == host.kernelCmdline
    && StrictlySorted(StringLeq, pending.fingerprint.passthroughPciIds)
    && (forall v :: v in pending.fingerprint.passthroughPciIds <==> PassesThrough(config.gpuRoles, host.gpus, v))
    && exists at :: Leaves(steps, at, pending.remainingSteps)
  }

  lemma StepsLeft(steps: seq<PlannedStep>) returns (at: seq<nat>)
    ensures Leaves(steps, at, PhaseBSteps(steps))
  {
    hide PhaseBSteps, IsPhaseA;
    if steps == [] {
      at := [];
      PhaseUnfold([]);
    } else {
      var n := |steps| - 1;
      var front, last := steps[..n], steps[n];
      var before := StepsLeft(front);
      assert steps == front + [last];
      PhaseStepsAppend(front, [last]);
      OneStep(last);
      hide Leaves;
      at := before + if IsPhaseA(last.kind) then [] else [n];
      LeavesMore(front, last, before, PhaseBSteps(front));
    }
  }

  lemma OneStep(step: PlannedStep)
    ensures PhaseBSteps([step]) == if IsPhaseA(step.kind) then [] else [step]
  {
    assert [step][1..] == [];
  }

  /** One step more at the end. */
  lemma LeavesMore(front: seq<PlannedStep>, last: PlannedStep, at: seq<nat>, left: seq<PlannedStep>)
    requires Leaves(front, at, left)
    ensures Leaves(
      front + [last], at + if IsPhaseA(last.kind) then [] else [|front|],
      left + if IsPhaseA(last.kind) then [] else [last])
  {
    var steps, more := front + [last], at + if IsPhaseA(last.kind) then [] else [|front|];
    forall i: nat | i < |steps|
      ensures i in more <==> steps[i].kind !in {Snapshot, BootloaderWrite, VfioConfig, InitramfsWrite}
    {
      if i < |front| {
        assert steps[i] == front[i];
      }
    }
  }

  /** The record remembers the plan it was made for. */
  lemma RecordRemembers(plan: Plan, host: SystemProfile, config: PassthroughConfig, id: string)
    ensures Remembers(BuildPendingPlan(plan, host, config, id), plan.steps, host, config, id)
  {
    hide PhaseBSteps, CanonicalIds, PassesThrough, Leaves;
    PassthroughIdsAre(config.gpuRoles, host.gpus);
    var at := StepsLeft(plan.steps);
  }

  /** The fingerprint's ids are the executor's list, sorted and deduplicated. */
  method MakePendingPlan(
    plan: Plan, host: SystemProfile, config: PassthroughConfig, id: string)
    returns (pending: PendingPlan)
    ensures pending == BuildPendingPlan(plan, host, config, id)
    ensures Remembers(pending, plan.steps, host, config, id)
  {
    hide PciIds, PhaseBSteps, Sort, Dedup, PassesThrough, Leaves;
    RecordRemembers(plan, host, config, id);
    var pciIds := ExecutorPciIds(host, config);
    pciIds := Dedup(Sort(StringLeq, pciIds));
    var fingerprint := HostFingerprint(host.distroId, host.bootloader.kind, host.initramfs, pciIds, host.kernelCmdline);
    pending := PendingPlan(id, fingerprint, PhaseBSteps(plan.steps), config);
  }

  datatype PhaseAOutcome = PhaseAOutcome(snapshotId: string, pendingPlanPath: Path, completedSteps: seq<StepKind>)


  ghost function TargetSet(steps: seq<PlannedStep>): set<Path> {
    TargetsOf(Targets(steps))
  }

  // ----- what holds at every operation -----

  /** A host path is only ever changed if it is a target and the manifest on disk has an entry for it. */
  ghost predicate WriteAhead(roots: Roots, id: string, targets: seq<Path>, e: Event) {
    e.path.Some? && !roots.Protected(e.path.value) ==>
      && e.path.value in targets && HasManifest(e.before, roots, id)
      && Covers(ManifestOf(e.before, roots, id), e.path.value)
  }

  /** The snapshot `id`, if its manifest is there, holds what was seen at the targets. */
  ghost predicate HoldsSeen(
    roots: Roots, sha: Contents -> Digest, id: string, targets: seq<Path>, m: SnapshotManifest,
    seen: map<Path, Contents>, d: Disk)
  {
    HasManifest(d, roots, id) ==>
      && Rewrites(roots, m, ManifestOf(d, roots, id)) && SameCount(m, ManifestOf(d, roots, id))
      && (NoClash(seen, targets) ==> Backs(d, roots, sha, id, targets, seen))
  }

  /** What holds at every operation of a Phase-A run that found `base` and captured `seen` as `m`. */
  ghost predicate SafeEvent(
    roots: Roots, sha: Contents -> Digest, id: string, targets: seq<Path>, m: SnapshotManifest,
    seen: map<Path, Contents>, base: Disk, e: Event)
  {
    && WriteAhead(roots, id, targets, e)
    && Keeps(roots, base, e.before)
    && HoldsSeen(roots, sha, id, targets, m, seen, e.before)
  }

  /** The run that edits after the capture `id` has left the disk `d` and `start` operations on record. */
  ghost function EditRun(
    roots: Roots, id: string, sha: Contents -> Digest, d: Disk, steps: seq<PlannedStep>, start: nat, quiet: bool): Run
  {
    Run(roots, id, sha, d, TargetSet(steps), {}, start, true, true, quiet)
  }

  /** The capture has succeeded; its run has been under way since. */
  ghost predicate Taken(
    sha: Contents -> Digest, plan: Plan, host: SystemProfile, base: Disk, n: nat, run: Run,
    seen: map<Path, Contents>, journal: seq<Event>)
  {
    && run == EditRun(run.roots, run.id, sha, run.base, plan.steps, run.start, run.quiet)
    && FreshId(base, run.roots, run.id) && n <= run.start <= |journal|
    && (forall t | t in Targets(plan.steps) :: !run.roots.Protected(t) && SeenAt(journal[..run.start], n, seen, t))
    && CaptureEvents(run.roots, run.id, base, journal[..run.start], n)
    && OwnOutside(run.roots, run.roots.SnapshotDir(run.id), base, run.base)
    && Captured(run.base, seen, run.roots, sha, plan, host, run.id)
    && run.Guarded(journal)
    && (run.quiet ==>
          && TargetsStay(run.roots, run.id, TargetSet(plan.steps), base, run.base)
          && forall t | t in Targets(plan.steps) :: Agree(seen, base.files, t))
  }

  lemma OutsideKeeps(roots: Roots, id: string, base: Disk, d: Disk)
    requires FreshId(base, roots, id) && OwnOutside(roots, roots.SnapshotDir(id), base, d)
    ensures Keeps(roots, base, d)
    ensures AddsOnlyIn(roots, id, base, d)
  {
    forall p | Under(roots.snapshots, p) && !Under(roots.SnapshotDir(id), p) ensures Same(base, d, p) {
      assert roots.Protected(p);
    }
  }

  lemma CaptureEventSafe(
    roots: Roots, sha: Contents -> Digest, id: string, targets: seq<Path>, m: SnapshotManifest,
    seen: map<Path, Contents>, base: Disk, e: Event)
    requires FreshId(base, roots, id) && CaptureEvent(roots, id, base, e)
    ensures SafeEvent(roots, sha, id, targets, m, seen, base, e)
  {
    OutsideKeeps(roots, id, base, e.before);
    assert Under(roots.snapshots, roots.SnapshotDir(id));
  }

  lemma RunStateHolds(
    sha: Contents -> Digest, plan: Plan, host: SystemProfile, base: Disk, n: nat, run: Run,
    seen: map<Path, Contents>, journal: seq<Event>, d: Disk)
    requires Taken(sha, plan, host, base, n, run, seen, journal) && run.Contains(d)
    ensures Keeps(run.roots, base, d) && AddsOnlyIn(run.roots, run.id, base, d)
    ensures HoldsSeen(
      run.roots, sha, run.id, Targets(plan.steps), CaptureManifest(seen, sha, plan, host, run.id), seen, d)
  {
    hide CaptureEvents, CaptureManifest, Targets, Captured, NoClash, SeenAt, TargetsStay, Run.Guarded, Backs;
    hide Keeps, Rewrites;
    OutsideKeeps(run.roots, run.id, base, run.base);
    KeepsTransitive(run.roots, base, run.base, d);
    CaptureManifestIs(run.base, seen, run.roots, sha, plan, host, run.id);
    KeepsManifest(run.roots, run.base, d, run.id);
    CaptureBacksIff(run.base, seen, run.roots, sha, plan, host, run.id);
    if NoClash(seen, Targets(plan.steps)) {
      BacksKept(run.roots, sha, run.base, d, run.id, Targets(plan.steps), seen);
    }
  }

  lemma AllEventsSafe(
    sha: Contents -> Digest, plan: Plan, host: SystemProfile, base: Disk, n: nat, run: Run,
    seen: map<Path, Contents>, journal: seq<Event>)
    requires Taken(sha, plan, host, base, n, run, seen, journal)
    ensures forall k | n <= k < |journal| ::
      SafeEvent(
        run.roots, sha, run.id, Targets(plan.steps), CaptureManifest(seen, sha, plan, host, run.id), seen, base,
        journal[k])
    ensures forall k | n <= k < |journal| :: CheckedWrite(run.roots, sha, run.id, journal, n, k)
  {
    hide SafeEvent, CaptureManifest, Targets, Captured, SeenAt, TargetsStay, Keeps, NoClash, CheckedWrite, FreshId;
    hide OwnOutside;
    var targets, m := Targets(plan.steps), CaptureManifest(seen, sha, plan, host, run.id);
    forall k | n <= k < |journal|
      ensures SafeEvent(run.roots, sha, run.id, targets, m, seen, base, journal[k])
      ensures CheckedWrite(run.roots, sha, run.id, journal, n, k)
    {
      if k < run.start {
        assert journal[..run.start][k] == journal[k];
        CaptureEventSafe(run.roots, sha, run.id, targets, m, seen, base, journal[k]);
        CaptureIsUnchecked(run.roots, sha, run.id, base, journal, n, k);
      } else {
        assert run.EventGuarded(journal[k]);
        CheckedSooner(run.roots, sha, run.id, journal, run.start, n, k);
        RunStateHolds(sha, plan, host, base, n, run, seen, journal, journal[k].before);
        RunEventSafe(sha, plan, host, base, run, seen, journal[k]);
      }
    }
  }

  lemma CheckedSooner(
    roots: Roots, sha: Contents -> Digest, id: string, journal: seq<Event>, n: nat, sooner: nat, k: nat)
    requires k < |journal| && CheckedWrite(roots, sha, id, journal, n, k) && sooner <= n
    ensures CheckedWrite(roots, sha, id, journal, sooner, k)
  {
  }

  lemma CaptureIsUnchecked(
    roots: Roots, sha: Contents -> Digest, id: string, base: Disk, journal: seq<Event>, n: nat, k: nat)
    requires k < |journal| && CaptureEvent(roots, id, base, journal[k])
    ensures CheckedWrite(roots, sha, id, journal, n, k)
  {
  }

  lemma RunEventSafe(
    sha: Contents -> Digest, plan: Plan, host: SystemProfile, base: Disk, run: Run, seen: map<Path, Contents>,
    e: Event)
    requires run.EventGuarded(e) && run.covered && run.scope == TargetSet(plan.steps) &&
      Keeps(run.roots, base, e.before)
    requires HoldsSeen(
      run.roots, sha, run.id, Targets(plan.steps), CaptureManifest(seen, sha, plan, host, run.id), seen, e.before)
    ensures SafeEvent(
      run.roots, sha, run.id, Targets(plan.steps), CaptureManifest(seen, sha, plan, host, run.id), seen, base, e)
  {
    hide Targets, CaptureManifest, HoldsSeen, Keeps;
  }

  // ----- the snapshot step -----

  /** How the phase stands after its snapshot step. */
  ghost predicate Snapped(
    sha: Contents -> Digest, plan: Plan, host: SystemProfile, base: Disk, n: nat, run: Run,
    seen: map<Path, Contents>, journal: seq<Event>, d: Disk)
  {
    && OwnDirsStay(run.roots, base, d)
    && if HasManifest(d, run.roots, run.id) then
         && Taken(sha, plan, host, base, n, run, seen, journal)
         && run.roots.SnapshotDir(run.id) in run.base.dirs
         && var m := CaptureManifest(seen, sha, plan, host, run.id);
            StepEffect(run, run.base, d, m, m, {}) && ManifestOf(d, run.roots, run.id) == m
       else
         && OwnOutside(run.roots, run.roots.SnapshotDir(run.id), base, d)
         && CaptureEvents(run.roots, run.id, base, journal, n)
  }

  /** The snapshot step at the front of a plan: capture, then read the manifest back. */
  method ExecuteSnapshotStep(
    fs: FileSystem, roots: Roots, sha: Contents -> Digest, plan: Plan, host: SystemProfile, id: string)
    returns (r: Result<SnapshotManifest, Error>, ghost seen: map<Path, Contents>, ghost run: Run)
    requires roots == fs.reserved && FreshId(fs.state, roots, id)
    requires forall t | t in Targets(plan.steps) :: !roots.Protected(t)
    modifies fs
    ensures fs.Advances() && run.Uses(fs, sha) && run.roots == roots && run.id == id
    ensures run.quiet == old(fs.Quiet(TargetSet(plan.steps)))
    ensures Snapped(sha, plan, host, old(fs.state), |old(fs.journal)|, run, seen, fs.journal, fs.state)
    ensures r.Success? ==> HasManifest(fs.state, roots, id) && r.value == ManifestOf(fs.state, roots, id)
    ensures r.Success? ==> run.start < |fs.journal| && plan.steps != [] && plan.steps[0].kind == Snapshot
    ensures old(fs.Calm()) && HasManifest(fs.state, roots, id) ==> r.Success?
    ensures old(fs.Calm()) && run.quiet && Capturable(old(fs.state), roots, id, Targets(plan.steps))
            && plan.steps != [] && plan.steps[0].kind == Snapshot
            ==> r.Success?
  {
    hide FileSystem.OnRecord, CaptureManifest, Targets, Captured, SeenAt, TargetsStay, OwnOutside, OwnDirsStay;
    hide CaptureEvents, Capturable;
    hide StepEffect, Run.Guarded, FreshId, Run.Open, Taken, Run.KnowsHostOnly, FileSystem.Quiet, Keeps, AddsNothing;
    ghost var base, n := fs.state, |fs.journal|;
    ghost var quiet := fs.Quiet(TargetSet(plan.steps));
    seen := map[];
    run := EditRun(roots, id, sha, base, plan.steps, n, quiet);
    KnowsTargets(run, plan);
    if plan.steps == [] || plan.steps[0].kind != Snapshot {
      NothingSnapped(roots, id, base, fs.journal);
      return Failure(NotASnapshotPlan), seen, run;
    }
    var captured;
    captured, seen := CaptureWithId(fs, roots, sha, plan, host, id);
    if captured.Fail? {
      return Failure(captured.error), seen, run;
    }
    run := EditRun(roots, id, sha, fs.state, plan.steps, |fs.journal|, quiet);
    KnowsTargets(run, plan);
    CaptureManifestIs(fs.state, seen, roots, sha, plan, host, id);
    ghost var m := CaptureManifest(seen, sha, plan, host, id);
    RunStarts(run, sha, plan, host, base, n, seen, fs.journal, m);
    ghost var taken := fs.journal;
    var raw := ReadFile(fs, roots.ManifestPath(id), run, m);
    TakenGrows(sha, plan, host, base, n, run, seen, taken, fs.journal);
    OwnDirsFrom(run, base, run.base, fs.state, m);
    EffectHasManifest(run, run.base, fs.state, m, m, {});
    if raw.Failure? {
      return Failure(raw.error), seen, run;
    }
    if !raw.value.ManifestFile? {
      return Failure(ManifestParse(id)), seen, run;
    }
    return Success(raw.value.manifest), seen, run;
  }

  lemma KnowsTargets(run: Run, plan: Plan)
    requires run == EditRun(run.roots, run.id, run.sha, run.base, plan.steps, run.start, run.quiet)
    requires forall t | t in Targets(plan.steps) :: !run.roots.Protected(t)
    ensures run.Known() == TargetSet(plan.steps) && run.KnowsHostOnly()
  {
    hide Targets;
    assert TargetSet(plan.steps) + {} == TargetSet(plan.steps);
  }

  lemma NothingSnapped(roots: Roots, id: string, base: Disk, journal: seq<Event>)
    requires FreshId(base, roots, id)
    ensures !HasManifest(base, roots, id) && OwnOutside(roots, roots.SnapshotDir(id), base, base)
    ensures OwnDirsStay(roots, base, base) && CaptureEvents(roots, id, base, journal, |journal|)
  {
    assert Under(roots.SnapshotDir(id), roots.ManifestPath(id));
  }

  lemma RunStarts(
    run: Run, sha: Contents -> Digest, plan: Plan, host: SystemProfile, base: Disk, n: nat,
    seen: map<Path, Contents>, journal: seq<Event>, m: SnapshotManifest)
    requires run == EditRun(run.roots, run.id, sha, run.base, plan.steps, |journal|, run.quiet) && n <= |journal|
    requires FreshId(base, run.roots, run.id)
    requires forall t | t in Targets(plan.steps) :: !run.roots.Protected(t) && SeenAt(journal, n, seen, t)
    requires CaptureEvents(run.roots, run.id, base, journal, n)
    requires OwnOutside(run.roots, run.roots.SnapshotDir(run.id), base, run.base)
    requires Captured(run.base, seen, run.roots, sha, plan, host, run.id)
    requires HasManifest(run.base, run.roots, run.id) && m == ManifestOf(run.base, run.roots, run.id)
    requires run.quiet ==> TargetsStay(run.roots, run.id, TargetSet(plan.steps), base, run.base)
    requires run.quiet ==> forall t | t in Targets(plan.steps) :: Agree(seen, base.files, t)
    ensures Taken(sha, plan, host, base, n, run, seen, journal)
    ensures run.Open(run.base, m) && run.Guarded(journal)
  {
    hide Targets, Captured, SeenAt, TargetsStay, CaptureEvents, OwnOutside, TargetSet;
    assert journal[..|journal|] == journal;
  }

  lemma TakenGrows(
    sha: Contents -> Digest, plan: Plan, host: SystemProfile, base: Disk, n: nat, run: Run,
    seen: map<Path, Contents>, journal: seq<Event>, more: seq<Event>)
    requires Taken(sha, plan, host, base, n, run, seen, journal) && journal <= more && run.Guarded(more)
    ensures Taken(sha, plan, host, base, n, run, seen, more)
  {
    hide Targets, Captured, TargetsStay, CaptureEvents, OwnOutside, TargetSet, Run.Guarded, CaptureManifest;
    assert more[..run.start] == journal[..run.start];
  }

  lemma OwnDirsFrom(run: Run, base: Disk, start: Disk, d: Disk, m: SnapshotManifest)
    requires OwnDirsStay(run.roots, base, start) && StepEffect(run, start, d, m, m, {})
    ensures OwnDirsStay(run.roots, base, d)
  {
  }

  // ----- after the edits -----

  lemma PendingIsProtected(roots: Roots, id: string)
    requires roots.Apart()
    ensures roots.Protected(roots.PendingPath()) && Under(roots.state, roots.PendingPath())
    ensures forall p | Under(roots.state, p) :: !Under(roots.snapshots, p)
    ensures !Under(roots.state, roots.ManifestPath(id)) && roots.Protected(roots.state)
  {
    forall p | Under(roots.state, p) ensures !Under(roots.snapshots, p) {
      PrefixesCompare(roots.snapshots, roots.state, p);
    }
    assert Under(roots.snapshots, roots.ManifestPath(id));
  }

  /** What the final bookkeeping may change: nothing but two records. */
  ghost predicate OnlyRecords(run: Run, d: Disk, later: Disk) {
    && (forall p | Under(run.roots.state, p) && p != run.roots.PendingPath() :: Same(d, later, p))
    && (run.quiet ==> ChangesOnly(run.Known(), d, later, {}))
  }

  /** Writing the pending record: the last change of a successful Phase A. */
  method WritePending(
    fs: FileSystem, pending: PendingPlan, m: SnapshotManifest, ghost run: Run, roots: Roots)
    returns (r: Outcome<Error>)
    requires run.roots == roots && roots.Apart()
    requires run.Uses(fs, run.sha) && run.Open(fs.state, m) && run.Guarded(fs.journal)
    modifies fs
    ensures fs.Advances() && run.Uses(fs, run.sha) && run.Guarded(fs.journal)
    ensures run.Open(fs.state, m) && OnlyRecords(run, old(fs.state), fs.state)
    ensures ManifestOf(fs.state, roots, run.id) == ManifestOf(old(fs.state), roots, run.id)
    ensures r.Fail? ==> Same(old(fs.state), fs.state, roots.PendingPath())
    ensures r.Pass? ==>
      roots.PendingPath() in fs.state.files && fs.state.files[roots.PendingPath()] == PendingFile(pending)
    ensures old(fs.Calm()) ==> r.Pass?
  {
    hide FileSystem.OnRecord, StepEffect, StaysPut, Run.Guarded, Run.KnowsHostOnly, Keeps, AddsNothing, Rewrites;
    hide HandsOff, Merged;
    ghost var before := fs.state;
    PendingIsProtected(roots, run.id);
    r := MakeDirs(fs, roots.state, run, m);
    ghost var mid, journal, found := fs.state, fs.journal, fs.Found();
    EffectIsOpen(run, before, mid, m, m, {});
    OwnFilesFrame(run, before, mid);
    if r.Fail? {
      return;
    }
    var p := roots.PendingPath();
    assert p[..|p| - 1] == roots.state && roots.state[..|roots.state|] == roots.state;
    AncestorsAt(roots.state, |roots.state|);
    OthersStep(run, mid, found, m);
    EffectIsOpen(run, mid, found, m, m, {});
    OwnFilesFrame(run, mid, found);
    r := fs.WriteAtomic(p, PendingFile(pending));
    if r.Pass? {
      RecordLogged(run, journal, found, fs.state, p);
      PendingWriteOpen(run, found, fs.state, m);
    } else {
      QuietEvent(run, journal, found, fs.state, m);
    }
    OnlyRecordsMore(run, before, mid, found, fs.state);
  }

  lemma OwnFilesFrame(run: Run, d: Disk, later: Disk)
    requires forall p | run.roots.Protected(p) :: Same(d, later, p)
    requires run.quiet ==> ChangesOnly(run.Known(), d, later, {})
    ensures OnlyRecords(run, d, later)
  {
    forall p | Under(run.roots.state, p) ensures Same(d, later, p) {
      assert run.roots.Protected(p);
    }
  }

  lemma OnlyRecordsMore(run: Run, a: Disk, b: Disk, c: Disk, d: Disk)
    requires OnlyRecords(run, a, b) && OnlyRecords(run, b, c) && OnlyRecords(run, c, d)
    ensures OnlyRecords(run, a, c) && OnlyRecords(run, a, d)
  {
    TwoOnlyRecords(run, a, b, c);
    TwoOnlyRecords(run, a, c, d);
  }

  lemma TwoOnlyRecords(run: Run, a: Disk, b: Disk, c: Disk)
    requires OnlyRecords(run, a, b) && OnlyRecords(run, b, c)
    ensures OnlyRecords(run, a, c)
  {
    forall p | Under(run.roots.state, p) && p != run.roots.PendingPath() ensures Same(a, c, p) {
      SameTransitive(a, b, c, p);
    }
    if run.quiet {
      var none: set<Path> := {};
      ChangesOnlyTransitive(run.Known(), a, b, c, {}, {});
      assert none + none == none;
    }
  }

  lemma PendingWriteOpen(run: Run, d: Disk, later: Disk, m: SnapshotManifest)
    requires run.roots.Apart() && run.Open(d, m) && (run.quiet ==> run.KnowsHostOnly())
    requires later.dirs == d.dirs && forall p | p != run.roots.PendingPath() :: Same(d, later, p)
    ensures run.Open(later, m) && ManifestOf(later, run.roots, run.id) == ManifestOf(d, run.roots, run.id)
    ensures OnlyRecords(run, d, later)
  {
    var roots := run.roots;
    PendingIsProtected(roots, run.id);
    HostWriteKeeps(roots, d, later, roots.PendingPath());
    KeepsTransitive(roots, run.base, d, later);
    assert Under(roots.snapshots, roots.ManifestPath(run.id));
    assert Same(d, later, roots.ManifestPath(run.id));
  }

  /** Persists the manifest, and then the pending record that refers to it. */
  method RecordPhaseA(
    fs: FileSystem, roots: Roots, id: string, m: SnapshotManifest, pending: PendingPlan, ghost run: Run)
    returns (r: Outcome<Error>)
    requires roots.Apart() && run.roots == roots && run.id == id
    requires run.Uses(fs, run.sha) && run.Open(fs.state, m) && run.Guarded(fs.journal)
    modifies fs
    ensures fs.Advances() && run.Uses(fs, run.sha) && run.Guarded(fs.journal)
    ensures run.Contains(fs.state) && OnlyRecords(run, old(fs.state), fs.state)
    ensures r.Fail? ==> Same(old(fs.state), fs.state, roots.PendingPath())
    ensures r.Pass? ==>
      roots.PendingPath() in fs.state.files && fs.state.files[roots.PendingPath()] == PendingFile(pending)
    ensures r.Pass? ==> ManifestOf(fs.state, roots, id) == m
    ensures old(fs.Calm()) && roots.SnapshotDir(id) in old(fs.state).dirs ==> r.Pass?
  {
    hide FileSystem.OnRecord, StepEffect, StaysPut, Run.Guarded, Run.Uses, Keeps, AddsNothing, Rewrites, ChangesOnly;
    hide Same;
    ghost var start := fs.state;
    PendingIsProtected(roots, id);
    r := PersistManifest(fs, roots, id, m, run);
    ghost var stored := fs.state;
    EffectIsOpen(run, start, stored, m, m, {});
    StoredFrame(run, start, stored);
    if r.Fail? {
      return;
    }
    r := WritePending(fs, pending, m, run, roots);
    TwoOnlyRecords(run, start, stored, fs.state);
    if r.Fail? {
      SameTransitive(start, stored, fs.state, roots.PendingPath());
    }
  }

  lemma StoredFrame(run: Run, d: Disk, later: Disk)
    requires run.roots.Apart() && (run.quiet ==> ChangesOnly(run.Known(), d, later, {}))
    requires forall p | run.roots.Protected(p) && p != run.roots.ManifestPath(run.id) :: Same(d, later, p)
    ensures OnlyRecords(run, d, later) && Same(d, later, run.roots.PendingPath())
  {
    PendingIsProtected(run.roots, run.id);
    forall p | Under(run.roots.state, p) ensures Same(d, later, p) {
      assert run.roots.Protected(p);
    }
  }

  // ----- the whole phase -----

  lemma EveryStepReady(
    run: Run, sha: Contents -> Digest, plan: Plan, host: SystemProfile, seen: map<Path, Contents>, d: Disk)
    requires HasManifest(d, run.roots, run.id)
    requires ManifestOf(d, run.roots, run.id) == CaptureManifest(seen, sha, plan, host, run.id)
    requires forall t | t in Targets(plan.steps) :: !run.roots.Protected(t)
    requires run.scope == TargetSet(plan.steps)
    ensures forall j | 0 <= j < |plan.steps| && plan.steps[j].kind != Snapshot :: StepReady(run, d, plan.steps[j])
  {
    hide RestoreActions;
    var m := ManifestOf(d, run.roots, run.id);
    var targets := Targets(plan.steps);
    forall j, t | 0 <= j < |plan.steps| && plan.steps[j].kind != Snapshot && t in plan.steps[j].touches
      ensures run.MayWrite(d, t)
    {
      TouchIsTarget(plan.steps, j, t);
      var i :| 0 <= i < |targets| && targets[i] == t;
      assert m.entries[i].originalPath == t;
      CoversAt(m, i);
    }
  }

  /** What was written stays through steps that leave the targets alone, seen from a start that had the same targets. */
  lemma EditsReachBack(
    steps: seq<PlannedStep>, host: SystemProfile, config: PassthroughConfig, sha: Contents -> Digest,
    base: Disk, start: Disk, written: Disk, later: Disk, m: SnapshotManifest, exact: bool)
    requires forall t | t in Targets(steps) :: Same(base, start, t) && Same(written, later, t)
    requires AllDone(steps, host, config, sha, start, written, m, exact)
    ensures AllDone(steps, host, config, sha, base, later, m, exact)
  {
    hide StepText;
    forall j | 0 <= j < |steps| && IsEdit(steps[j].kind)
      ensures EditDone(steps[j], host, config, sha, base, later, m, exact)
    {
      assert EditDone(steps[j], host, config, sha, start, written, m, exact);
      var t := steps[j].touches[0];
      assert t in steps[j].touches;
      TouchIsTarget(steps, j, t);
      EditDoneFrom(steps[j], host, config, sha, base, start, written, m, exact);
    }
  }

  /** Where what was seen of the targets is still there, they are all as captured. */
  lemma AllowedAfterCapture(
    sha: Contents -> Digest, plan: Plan, host: SystemProfile, id: string, seen: map<Path, Contents>, d: Disk)
    requires forall t | t in Targets(plan.steps) :: Agree(seen, d.files, t)
    ensures AllowedAtStart(plan.steps, sha, d, CaptureManifest(seen, sha, plan, host, id))
  {
    hide RestoreActions;
    var m := CaptureManifest(seen, sha, plan, host, id);
    var targets := Targets(plan.steps);
    forall j, t | 0 <= j < |plan.steps| && IsEdit(plan.steps[j].kind) && t in plan.steps[j].touches
      ensures WriteAllowed(d, sha, m, t)
    {
      TouchIsTarget(plan.steps, j, t);
      var i :| 0 <= i < |targets| && targets[i] == t;
      assert m.entries[i].originalPath == t;
      CoversAt(m, i);
      var k := IndexOf(m.entries, t);
      assert m.entries[k] == CaptureEntry(seen, sha, plan.steps, targets[k]);
      assert Agree(seen, d.files, t);
    }
  }

  lemma EditableAfterCapture(
    steps: seq<PlannedStep>, host: SystemProfile, config: PassthroughConfig, base: Disk, start: Disk)
    requires AllEditable(steps, host, config, base) && base.dirs <= start.dirs
    requires forall t | t in Targets(steps) :: Same(base, start, t)
    ensures AllEditable(steps, host, config, start)
  {
    forall j | 0 <= j < |steps| && IsEdit(steps[j].kind) ensures Editable(steps[j], host, config, start) {
      assert Editable(steps[j], host, config, base);
      var t := steps[j].touches[0];
      assert t in steps[j].touches;
      TouchIsTarget(steps, j, t);
      TextDependsOnTarget(steps[j], host, config, base, start);
    }
  }

  /** The plan starts with its snapshot, every target can be captured, and every edit can be made. */
  ghost predicate PhaseAPossible(
    plan: Plan, host: SystemProfile, config: PassthroughConfig, roots: Roots, id: string, d: Disk)
  {
    && plan.steps != [] && plan.steps[0].kind == Snapshot
    && Capturable(d, roots, id, Targets(plan.steps))
    && AllEditable(plan.steps, host, config, d)
  }

  /** The edits, and the host commands that make them take effect. */
  method EditAndRegenerate(
    fs: FileSystem, sha: Contents -> Digest, steps: seq<PlannedStep>, host: SystemProfile, config: PassthroughConfig,
    regenerate: bool, m: SnapshotManifest, ghost run: Run, ghost n: nat)
    returns (r: Outcome<Error>, mLater: SnapshotManifest, completed: seq<StepKind>)
    requires run.Uses(fs, sha) && run.Open(fs.state, m) && run.Guarded(fs.journal) && run.covered
    requires run.scope == TargetSet(steps) && n <= |fs.journal|
    requires forall j | 0 <= j < |steps| && steps[j].kind != Snapshot :: StepReady(run, fs.state, steps[j])
    modifies fs
    ensures fs.Advances() && run.Uses(fs, sha) && run.Guarded(fs.journal)
    ensures StepEffect(run, old(fs.state), fs.state, m, mLater, EditedPaths(steps))
    ensures r.Pass? ==> completed == [Snapshot] + EditKinds(steps)
    ensures r.Pass? ==> AllLogged(steps, fs.journal, |old(fs.journal)|)
    ensures r.Pass? && regenerate ==>
      Regenerated(fs.commands[|old(fs.commands)|..], host, BootloaderWrite in completed, InitramfsWrite in completed)
    ensures r.Pass? && run.quiet && DistinctEdits(steps) ==>
      AllDone(steps, host, config, sha, old(fs.state), fs.state, mLater, ReadsExactly(host, old(fs.Calm())))
    ensures run.quiet && old(fs.Calm()) && AllEditable(steps, host, config, old(fs.state))
            && AllowedAtStart(steps, sha, old(fs.state), m)
            ==> r.Pass?
    ensures old(fs.Calm()) && r.Fail? && AllWorkable(run.roots, run.id, steps, host, config, fs.journal, n) ==>
      r.error.HashMismatch?
  {
    hide FileSystem.OnRecord, StepEffect, EditedPaths, StepReady, AllDone, DistinctEdits, AllEditable, AllowedAtStart;
    hide Run.Guarded;
    hide EditKinds, AllLogged, AllWorkable, FileSystem.Quiet, Run.KnowsHostOnly, Run.Open, ReadsExactly, TargetSet;
    hide Same, Regenerated;
    ghost var already := fs.commands;
    ghost var start := fs.state;
    r, mLater, completed := RunEdits(fs, sha, steps, host, config, m, run, n);
    if r.Fail? || !regenerate {
      return;
    }
    ghost var written, journal, commands := fs.state, fs.journal, fs.commands;
    EffectIsOpen(run, start, written, m, mLater, EditedPaths(steps));
    r := RunRegenerateCommands(fs, host, completed, run, mLater);
    if r.Pass? {
      RegeneratedLater(
        already, commands, fs.commands, fs.commands, host, BootloaderWrite in completed, InitramfsWrite in completed);
    }
    StepEffectTransitive(run, start, written, fs.state, m, mLater, mLater, EditedPaths(steps), {});
    assert EditedPaths(steps) + {} == EditedPaths(steps);
    LoggedLater(steps, journal, fs.journal, |old(fs.journal)|);
    if run.quiet && DistinctEdits(steps) {
      TargetsAfterEdits(run, steps, start, written, fs.state, mLater);
      EditsReachBack(
        steps, host, config, sha, start, start, written, fs.state, mLater, ReadsExactly(host, old(fs.Calm())));
    }
  }

  lemma LoggedLater(steps: seq<PlannedStep>, journal: seq<Event>, more: seq<Event>, n: nat)
    requires AllLogged(steps, journal, n) && journal <= more
    ensures AllLogged(steps, more, n)
  {
    forall j | 0 <= j < |steps| && IsEdit(steps[j].kind)
      ensures steps[j].touches != [] && Logged(more, n, steps[j].touches[0])
    {
      StaysLogged(journal, more, n, n, steps[j].touches[0]);
    }
  }

  /** The host commands leave the targets alone, where others do. */
  lemma TargetsAfterEdits(
    run: Run, steps: seq<PlannedStep>, start: Disk, written: Disk, later: Disk, m: SnapshotManifest)
    requires run.quiet && run.scope == TargetSet(steps) && StepEffect(run, written, later, m, m, {})
    ensures forall t | t in Targets(steps) :: Same(start, start, t) && Same(written, later, t)
  {
    hide Targets, Run.Open;
    forall t | t in Targets(steps) ensures Same(written, later, t) {
      assert t in run.scope && t in run.Known();
    }
  }

  /** ... and so does the final bookkeeping. */
  lemma TargetsAfterRecords(run: Run, steps: seq<PlannedStep>, start: Disk, written: Disk, later: Disk)
    requires run.quiet && run.scope == TargetSet(steps) && OnlyRecords(run, written, later)
    ensures forall t | t in Targets(steps) :: Same(start, start, t) && Same(written, later, t)
  {
    hide Targets;
    forall t | t in Targets(steps) ensures Same(written, later, t) {
      assert t in run.scope && t in run.Known();
    }
  }

  /** Phase A after a successful capture. */
  lemma KindsCompleted(steps: seq<PlannedStep>, completed: seq<StepKind>)
    requires completed == [Snapshot] + EditKinds(steps)
    ensures forall kind | kind != Snapshot :: kind in completed <==> kind in EditKinds(steps)
  {
  }

  method FinishPhaseA(
    fs: FileSystem, roots: Roots, sha: Contents -> Digest, plan: Plan, host: SystemProfile, config: PassthroughConfig,
    id: string, regenerate: bool, manifest: SnapshotManifest, pending: PendingPlan, ghost run: Run, ghost n: nat,
    ghost already: seq<string>)
    returns (r: Result<PhaseAOutcome, Error>)
    requires already <= fs.commands
    requires roots.Apart() && run.roots == roots && run.id == id && run.covered && n <= |fs.journal|
    requires run.Uses(fs, sha) && run.Open(fs.state, manifest) && run.Guarded(fs.journal)
    requires run.scope == TargetSet(plan.steps)
    requires forall j | 0 <= j < |plan.steps| && plan.steps[j].kind != Snapshot ::
      StepReady(run, fs.state, plan.steps[j])
    modifies fs
    ensures fs.Advances() && run.Uses(fs, sha) && run.Guarded(fs.journal) && run.Contains(fs.state)
    ensures forall p | Under(roots.state, p) && p != roots.PendingPath() :: Same(old(fs.state), fs.state, p)
    ensures r.Failure? ==> Same(old(fs.state), fs.state, roots.PendingPath())
    ensures r.Success? ==>
      && roots.PendingPath() in fs.state.files && fs.state.files[roots.PendingPath()] == PendingFile(pending)
      && r.value == PhaseAOutcome(id, roots.PendingPath(), [Snapshot] + EditKinds(plan.steps))
      && AllLogged(plan.steps, fs.journal, |old(fs.journal)|)
    ensures r.Success? && regenerate ==>
      Regenerated(
        fs.commands[|already|..], host, BootloaderWrite in EditKinds(plan.steps),
        InitramfsWrite in EditKinds(plan.steps))
    ensures r.Success? && run.quiet && DistinctEdits(plan.steps) ==>
      AllDone(
        plan.steps, host, config, sha, old(fs.state), fs.state, ManifestOf(fs.state, roots, id),
        ReadsExactly(host, old(fs.Calm())))
    ensures run.quiet && old(fs.Calm()) && AllEditable(plan.steps, host, config, old(fs.state))
            && AllowedAtStart(plan.steps, sha, old(fs.state), manifest) && roots.SnapshotDir(id) in old(fs.state).dirs
            ==> r.Success?
    ensures old(fs.Calm()) && r.Failure? && roots.SnapshotDir(id) in old(fs.state).dirs
            && AllWorkable(roots, id, plan.steps, host, config, fs.journal, n)
            ==> r.error.HashMismatch?
  {
    hide FileSystem.OnRecord, Keeps, AddsNothing, Rewrites, Extends, AllDone, AllEditable, AllowedAtStart;
    hide ChangesOnly, AllWorkable;
    hide StepEffect, EditedPaths, KeepsEntries, Run.Guarded, Run.Contains, Targets, TargetSet, AllLogged;
    hide FileSystem.Quiet, Run.KnowsHostOnly;
    hide DistinctEdits, EditKinds, StepReady, Roots.Protected, OnlyRecords, Same, ReadsExactly, Run.Open, Regenerated;
    ghost var start, before := fs.state, fs.commands;
    var edited, m, completed := EditAndRegenerate(fs, sha, plan.steps, host, config, regenerate, manifest, run, n);
    ghost var written, journal, commands := fs.state, fs.journal, fs.commands;
    EffectIsOpen(run, start, written, manifest, m, EditedPaths(plan.steps));
    OpenContains(run, written, m);
    RecordsAfterEdits(run, start, written, manifest, m, EditedPaths(plan.steps));
    if edited.Fail? {
      return Failure(edited.error);
    }
    var recorded := RecordPhaseA(fs, roots, id, m, pending, run);
    RecordsAfterRecords(run, start, written, fs.state);
    if recorded.Fail? {
      return Failure(recorded.error);
    }
    LoggedLater(plan.steps, journal, fs.journal, |old(fs.journal)|);
    if regenerate {
      KindsCompleted(plan.steps, completed);
      RegeneratedLater(
        already, before, commands, fs.commands, host, BootloaderWrite in EditKinds(plan.steps),
        InitramfsWrite in EditKinds(plan.steps));
    }
    if run.quiet && DistinctEdits(plan.steps) {
      TargetsAfterRecords(run, plan.steps, start, written, fs.state);
      EditsReachBack(
        plan.steps, host, config, sha, start, start, written, fs.state, m, ReadsExactly(host, old(fs.Calm())));
    }
    return Success(PhaseAOutcome(id, roots.PendingPath(), completed));
  }

  lemma OpenContains(run: Run, d: Disk, m: SnapshotManifest)
    requires run.Open(d, m)
    ensures run.Contains(d) && HasManifest(d, run.roots, run.id)
  {
  }

  /** Edits and commands change nothing below the state root, and remove none of Virtu's directories. */
  lemma RecordsAfterEdits(
    run: Run, start: Disk, written: Disk, m0: SnapshotManifest, m: SnapshotManifest, paths: set<Path>)
    requires run.roots.Apart() && StepEffect(run, start, written, m0, m, paths)
    ensures forall p | Under(run.roots.state, p) :: Same(start, written, p)
    ensures Same(start, written, run.roots.PendingPath())
    ensures run.roots.SnapshotDir(run.id) in start.dirs ==> run.roots.SnapshotDir(run.id) in written.dirs
  {
    PendingIsProtected(run.roots, run.id);
    assert Under(run.roots.snapshots, run.roots.SnapshotDir(run.id));
  }

  lemma RecordsAfterRecords(run: Run, start: Disk, written: Disk, later: Disk)
    requires forall p | Under(run.roots.state, p) :: Same(start, written, p)
    requires Same(start, written, run.roots.PendingPath()) && OnlyRecords(run, written, later)
    ensures forall p | Under(run.roots.state, p) && p != run.roots.PendingPath() :: Same(start, later, p)
    ensures Same(written, later, run.roots.PendingPath()) ==> Same(start, later, run.roots.PendingPath())
  {
    forall p | Under(run.roots.state, p) && p != run.roots.PendingPath() ensures Same(start, later, p) {
      SameTransitive(start, written, later, p);
    }
  }

  /** What a Phase-A run has made of the disk it found as `base`, however far it got. */
  ghost predicate PhaseABounds(
    roots: Roots, sha: Contents -> Digest, plan: Plan, host: SystemProfile, id: string, base: Disk, d: Disk,
    journal: seq<Event>, n: nat, seen: map<Path, Contents>)
  {
    var targets, m := Targets(plan.steps), CaptureManifest(seen, sha, plan, host, id);
    && (forall k | n <= k < |journal| :: SafeEvent(roots, sha, id, targets, m, seen, base, journal[k]))
    && (forall k | n <= k < |journal| :: CheckedWrite(roots, sha, id, journal, n, k))
    && Keeps(roots, base, d) && AddsOnlyIn(roots, id, base, d)
    && (forall p | Under(roots.state, p) && p != roots.PendingPath() :: Same(base, d, p))
    && HoldsSeen(roots, sha, id, targets, m, seen, d)
    && (if HasManifest(d, roots, id) then forall t | t in targets :: SeenFirst(roots, journal, n, seen, t)
        else
          && OwnOutside(roots, roots.SnapshotDir(id), base, d)
          && forall k | n <= k < |journal| && journal[k].path.Some? :: roots.Protected(journal[k].path.value))
  }

  /** From the manifest on, every edit could be made of what was found, but for changed contents. */
  ghost predicate WorkableOnceTaken(
    roots: Roots, id: string, steps: seq<PlannedStep>, host: SystemProfile, config: PassthroughConfig,
    journal: seq<Event>, n: nat)
  {
    forall k, j | n <= k < |journal| && HasManifest(journal[k].before, roots, id)
        && 0 <= j < |steps| && IsEdit(steps[j].kind) ::
      Workable(roots, id, steps[j], host, config, journal[k].before)
  }

  lemma WorkableInRun(
    run: Run, steps: seq<PlannedStep>, host: SystemProfile, config: PassthroughConfig, journal: seq<Event>, n: nat)
    requires WorkableOnceTaken(run.roots, run.id, steps, host, config, journal, n)
    requires n <= run.start < |journal| && run.Guarded(journal)
    ensures AllWorkable(run.roots, run.id, steps, host, config, journal, run.start)
  {
    hide Workable;
    forall k, j | run.start <= k < |journal| && 0 <= j < |steps| && IsEdit(steps[j].kind)
      ensures Workable(run.roots, run.id, steps[j], host, config, journal[k].before)
    {
      assert run.EventGuarded(journal[k]);
    }
  }

  lemma SnappedBounds(
    roots: Roots, sha: Contents -> Digest, plan: Plan, host: SystemProfile, base: Disk, n: nat, run: Run,
    seen: map<Path, Contents>, journal: seq<Event>, d: Disk)
    requires roots.Apart() && FreshId(base, roots, run.id) && run.roots == roots
    requires Snapped(sha, plan, host, base, n, run, seen, journal, d)
    ensures PhaseABounds(roots, sha, plan, host, run.id, base, d, journal, n, seen)
    ensures Same(base, d, roots.PendingPath())
  {
    hide CaptureManifest, Targets, SafeEvent, CheckedWrite, Keeps, AddsNothing, Rewrites, HoldsSeen, SeenAt;
    hide Run.Guarded, Captured, TargetsStay, KeepsEntries;
    var id, targets, m := run.id, Targets(plan.steps), CaptureManifest(seen, sha, plan, host, run.id);
    PendingIsProtected(roots, id);
    if HasManifest(d, roots, id) {
      EffectIsOpen(run, run.base, d, m, m, {});
      OpenContains(run, d, m);
      AllEventsSafe(sha, plan, host, base, n, run, seen, journal);
      RunStateHolds(sha, plan, host, base, n, run, seen, journal, d);
      StateRootSame(run, base, d, m);
      TakenFirst(sha, plan, host, base, n, run, seen, journal);
    } else {
      CaptureIsOwn(roots, id, base, journal, n);
      forall k | n <= k < |journal|
        ensures SafeEvent(roots, sha, id, targets, m, seen, base, journal[k])
        ensures CheckedWrite(roots, sha, id, journal, n, k)
      {
        CaptureEventSafe(roots, sha, id, targets, m, seen, base, journal[k]);
        CaptureIsUnchecked(roots, sha, id, base, journal, n, k);
      }
      OutsideKeeps(roots, id, base, d);
      NothingHeld(roots, sha, id, targets, m, seen, d);
      OutsideState(roots, id, base, d);
    }
  }

  lemma NothingHeld(
    roots: Roots, sha: Contents -> Digest, id: string, targets: seq<Path>, m: SnapshotManifest,
    seen: map<Path, Contents>, d: Disk)
    requires !HasManifest(d, roots, id)
    ensures HoldsSeen(roots, sha, id, targets, m, seen, d)
  {
  }

  lemma OutsideState(roots: Roots, id: string, base: Disk, d: Disk)
    requires roots.Apart() && OwnOutside(roots, roots.SnapshotDir(id), base, d)
    ensures forall p | Under(roots.state, p) :: Same(base, d, p)
    ensures Same(base, d, roots.PendingPath())
  {
    PendingIsProtected(roots, id);
    forall p | Under(roots.state, p) ensures Same(base, d, p) {
      assert Under(roots.snapshots, roots.SnapshotDir(id));
      assert !Under(roots.SnapshotDir(id), p) && roots.Protected(p);
    }
  }

  lemma StateRootSame(run: Run, base: Disk, d: Disk, m: SnapshotManifest)
    requires run.roots.Apart() && OwnOutside(run.roots, run.roots.SnapshotDir(run.id), base, run.base)
    requires StepEffect(run, run.base, d, m, m, {})
    ensures forall p | Under(run.roots.state, p) :: Same(base, d, p)
    ensures Same(base, d, run.roots.PendingPath())
  {
    hide Run.Open, Rewrites, KeepsEntries;
    OutsideState(run.roots, run.id, base, run.base);
    PendingIsProtected(run.roots, run.id);
    forall p | Under(run.roots.state, p) ensures Same(base, d, p) {
      assert Same(run.base, d, p);
      SameTransitive(base, run.base, d, p);
    }
  }

  /** The bounds after the rest of the phase, which starts at `mid`. */
  lemma FinishedBounds(
    roots: Roots, sha: Contents -> Digest, plan: Plan, host: SystemProfile, base: Disk, n: nat, run: Run,
    seen: map<Path, Contents>, taken: seq<Event>, journal: seq<Event>, mid: Disk, d: Disk)
    requires roots.Apart() && run.roots == roots
    requires Taken(sha, plan, host, base, n, run, seen, taken) && taken <= journal && run.Guarded(journal)
    requires run.Contains(d)
    requires forall p | Under(roots.state, p) :: Same(base, mid, p)
    requires forall p | Under(roots.state, p) && p != roots.PendingPath() :: Same(mid, d, p)
    ensures PhaseABounds(roots, sha, plan, host, run.id, base, d, journal, n, seen)
    ensures Same(mid, d, roots.PendingPath()) ==> Same(base, d, roots.PendingPath())
  {
    hide CaptureManifest, Targets, SafeEvent, CheckedWrite, Keeps, AddsNothing, Rewrites, HoldsSeen, SeenAt;
    hide Run.Guarded, Captured, TargetsStay, CaptureEvents, OwnOutside;
    TakenGrows(sha, plan, host, base, n, run, seen, taken, journal);
    AllEventsSafe(sha, plan, host, base, n, run, seen, journal);
    RunStateHolds(sha, plan, host, base, n, run, seen, journal, d);
    TakenFirst(sha, plan, host, base, n, run, seen, journal);
    forall p | Under(roots.state, p) && p != roots.PendingPath() ensures Same(base, d, p) {
      SameTransitive(base, mid, d, p);
    }
    PendingIsProtected(roots, run.id);
  }

  lemma TakenFirst(
    sha: Contents -> Digest, plan: Plan, host: SystemProfile, base: Disk, n: nat, run: Run,
    seen: map<Path, Contents>, journal: seq<Event>)
    requires Taken(sha, plan, host, base, n, run, seen, journal)
    ensures forall t | t in Targets(plan.steps) :: SeenFirst(run.roots, journal, n, seen, t)
  {
    hide Targets, Captured, SeenAt, SeenFirst, TargetsStay, CaptureEvents, OwnOutside, TargetSet, Run.Guarded;
    forall t | t in Targets(plan.steps) ensures SeenFirst(run.roots, journal, n, seen, t) {
      SeenIsFirst(run.roots, run.id, base, journal[..run.start], journal, n, seen, t);
    }
  }

  lemma CaptureIsOwn(roots: Roots, id: string, base: Disk, journal: seq<Event>, n: nat)
    requires CaptureEvents(roots, id, base, journal, n)
    ensures forall k | n <= k < |journal| && journal[k].path.Some? :: roots.Protected(journal[k].path.value)
  {
    assert Under(roots.snapshots, roots.SnapshotDir(id));
    forall k | n <= k < |journal| && journal[k].path.Some? ensures roots.Protected(journal[k].path.value) {
      assert CaptureEvent(roots, id, base, journal[k]);
    }
  }

  /** Where others leave the targets alone, they are as at the start when the edits begin. */
  lemma TargetsUntilEdits(
    sha: Contents -> Digest, plan: Plan, host: SystemProfile, base: Disk, n: nat, run: Run,
    seen: map<Path, Contents>, journal: seq<Event>, d: Disk)
    requires Snapped(sha, plan, host, base, n, run, seen, journal, d) && HasManifest(d, run.roots, run.id)
    requires run.quiet
    ensures forall t | t in Targets(plan.steps) :: Same(base, d, t) && Agree(seen, d.files, t)
    ensures base.dirs <= d.dirs
  {
    hide CaptureManifest, Targets, SeenAt, Run.Guarded, Captured, CaptureEvents, Run.Open, Rewrites;
    var m := CaptureManifest(seen, sha, plan, host, run.id);
    EffectIsOpen(run, run.base, d, m, m, {});
    forall t | t in Targets(plan.steps) ensures Same(base, d, t) && Agree(seen, d.files, t) {
      assert t in TargetSet(plan.steps) && t in run.Known();
      assert Same(base, run.base, t) && Same(run.base, d, t);
      SameTransitive(base, run.base, d, t);
      assert Agree(seen, base.files, t);
    }
  }

  // ----- edits by others between capture and write -----

  /** Since the capture, no operation has found the captured content at `t`. */
  ghost predicate ChangedSince(
    roots: Roots, id: string, sha: Contents -> Digest, seen: map<Path, Contents>, t: Path, journal: seq<Event>, n: nat)
  {
    t in seen && forall k | n <= k < |journal| && HasManifest(journal[k].before, roots, id) ::
      t in journal[k].before.files ==> sha(journal[k].before.files[t]) != sha(seen[t])
  }

  /** A manifest that holds what was seen has an entry for each file that was, with its digest. */
  lemma SeenNeedsCheck(
    roots: Roots, sha: Contents -> Digest, plan: Plan, host: SystemProfile, id: string, seen: map<Path, Contents>,
    m: SnapshotManifest, t: Path)
    requires Rewrites(roots, CaptureManifest(seen, sha, plan, host, id), m)
    requires t in Targets(plan.steps) && t in seen
    ensures NeedsCheck(m, t) && EntryFor(m, t).value.preEdit == sha(seen[t])
  {
    hide RestoreActions;
    var m0, targets := CaptureManifest(seen, sha, plan, host, id), Targets(plan.steps);
    var i :| 0 <= i < |targets| && targets[i] == t;
    assert m0.entries[i].originalPath == t;
    CoversAt(m0, i);
    var k := IndexOf(m0.entries, t);
    assert m0.entries[k] == CaptureEntry(seen, sha, plan.steps, targets[k]);
    ExtendsEntryFor(m0, m, t);
  }

  /** A captured file that others have changed since, and not put back, is not written: their edit stays. */
  lemma ChangedIsNotWritten(
    roots: Roots, sha: Contents -> Digest, plan: Plan, host: SystemProfile, id: string, base: Disk, d: Disk,
    journal: seq<Event>, n: nat, seen: map<Path, Contents>, t: Path)
    requires PhaseABounds(roots, sha, plan, host, id, base, d, journal, n, seen)
    requires t in Targets(plan.steps) && !roots.Protected(t)
    requires ChangedSince(roots, id, sha, seen, t, journal, n)
    ensures !Logged(journal, n, t)
  {
    hide CaptureManifest, Targets, Keeps, AddsOnlyIn, SeenAt, NoClash, Backs, Rewrites;
    if Logged(journal, n, t) {
      var k :| n <= k < |journal| && journal[k].path == Some(t);
      assert CheckedWrite(roots, sha, id, journal, n, k);
      assert SafeEvent(
        roots, sha, id, Targets(plan.steps), CaptureManifest(seen, sha, plan, host, id), seen, base, journal[k]);
      var m := ManifestOf(journal[k].before, roots, id);
      SeenNeedsCheck(roots, sha, plan, host, id, seen, m, t);
      assert false;
    }
  }

  lemma NoneWritten(
    roots: Roots, sha: Contents -> Digest, plan: Plan, host: SystemProfile, id: string, base: Disk, d: Disk,
    journal: seq<Event>, n: nat, seen: map<Path, Contents>)
    requires PhaseABounds(roots, sha, plan, host, id, base, d, journal, n, seen)
    requires forall t | t in Targets(plan.steps) :: !roots.Protected(t)
    ensures forall j | 0 <= j < |plan.steps| && IsEdit(plan.steps[j].kind) && plan.steps[j].touches != []
        && ChangedSince(roots, id, sha, seen, plan.steps[j].touches[0], journal, n) ::
      !Logged(journal, n, plan.steps[j].touches[0]) && !AllLogged(plan.steps, journal, n)
  {
    hide PhaseABounds, Targets, ChangedSince, Logged;
    forall j | 0 <= j < |plan.steps| && IsEdit(plan.steps[j].kind) && plan.steps[j].touches != []
        && ChangedSince(roots, id, sha, seen, plan.steps[j].touches[0], journal, n)
      ensures !Logged(journal, n, plan.steps[j].touches[0]) && !AllLogged(plan.steps, journal, n)
    {
      var t := plan.steps[j].touches[0];
      assert t in plan.steps[j].touches;
      TouchIsTarget(plan.steps, j, t);
      ChangedIsNotWritten(roots, sha, plan, host, id, base, d, journal, n, seen, t);
    }
  }

  /** After a successful snapshot step its run is under way. */
  lemma SnappedRun(
    sha: Contents -> Digest, plan: Plan, host: SystemProfile, base: Disk, n: nat, run: Run,
    seen: map<Path, Contents>, journal: seq<Event>, d: Disk)
    requires Snapped(sha, plan, host, base, n, run, seen, journal, d) && HasManifest(d, run.roots, run.id)
    ensures Taken(sha, plan, host, base, n, run, seen, journal) && n <= run.start <= |journal|
    ensures run.covered && run.scope == TargetSet(plan.steps) && run.Guarded(journal)
    ensures ManifestOf(d, run.roots, run.id) == CaptureManifest(seen, sha, plan, host, run.id)
    ensures run.Open(d, ManifestOf(d, run.roots, run.id)) && run.roots.SnapshotDir(run.id) in d.dirs
  {
    hide CaptureManifest, Targets, SeenAt, Run.Guarded, Captured, TargetsStay, CaptureEvents, Rewrites, TargetSet;
    hide OwnOutside, KeepsEntries, Keeps, AddsNothing;
    assert Under(run.roots.snapshots, run.roots.SnapshotDir(run.id));
  }

  lemma StateRootUntilEdits(
    sha: Contents -> Digest, plan: Plan, host: SystemProfile, base: Disk, n: nat, run: Run,
    seen: map<Path, Contents>, journal: seq<Event>, d: Disk)
    requires Snapped(sha, plan, host, base, n, run, seen, journal, d) && HasManifest(d, run.roots, run.id)
    requires run.roots.Apart()
    ensures forall p | Under(run.roots.state, p) :: Same(base, d, p)
  {
    hide CaptureManifest, Targets, SeenAt, Run.Guarded, Captured, TargetsStay, CaptureEvents, TargetSet, StepEffect;
    hide OwnOutside;
    StateRootSame(run, base, d, CaptureManifest(seen, sha, plan, host, run.id));
  }

  lemma ContainsManifest(run: Run, d: Disk)
    requires run.Contains(d)
    ensures HasManifest(d, run.roots, run.id)
  {
  }

  lemma SameToday(steps: seq<PlannedStep>, base: Disk, mid: Disk, d: Disk)
    requires forall t | t in Targets(steps) :: Same(base, mid, t)
    ensures forall t | t in Targets(steps) :: Same(base, mid, t) && Same(d, d, t)
  {
  }

  lemma AllLoggedSooner(steps: seq<PlannedStep>, journal: seq<Event>, n: nat, sooner: nat)
    requires AllLogged(steps, journal, n) && sooner <= n
    ensures AllLogged(steps, journal, sooner)
  {
    forall j | 0 <= j < |steps| && IsEdit(steps[j].kind)
      ensures steps[j].touches != [] && Logged(journal, sooner, steps[j].touches[0])
    {
      StaysLogged(journal, journal, n, sooner, steps[j].touches[0]);
    }
  }

  /**
   * Phase A. Whatever fails, wherever it stops and whatever others do meanwhile: at every operation
   * every older snapshot is kept, no host file but a target has been written, and none before the
   * manifest on disk covered it; that snapshot holds what the capture saw. A captured file is only
   * written right after a look that found its captured content. So if others change one after the
   * capture, their edit stays and the phase fails, without faults and with nothing else in the way
   * by a hash mismatch.
   */
  method ExecutePhaseA(
    fs: FileSystem, roots: Roots, sha: Contents -> Digest, plan: Plan, host: SystemProfile, config: PassthroughConfig,
    id: string, regenerate: bool)
    returns (r: Result<PhaseAOutcome, Error>, ghost seen: map<Path, Contents>)
    requires roots == fs.reserved && roots.Apart() && FreshId(fs.state, roots, id)
    requires forall t | t in Targets(plan.steps) :: !roots.Protected(t)
    modifies fs
    ensures fs.Advances()
    ensures PhaseABounds(
      roots, sha, plan, host, id, old(fs.state), fs.state, fs.journal, |old(fs.journal)|, seen)
    ensures r.Failure? ==> Same(old(fs.state), fs.state, roots.PendingPath())
    ensures r.Success? ==>
      && HasManifest(fs.state, roots, id)
      && roots.PendingPath() in fs.state.files
      && fs.state.files[roots.PendingPath()] == PendingFile(BuildPendingPlan(plan, host, config, id))
      && r.value == PhaseAOutcome(id, roots.PendingPath(), [Snapshot] + EditKinds(plan.steps))
      && AllLogged(plan.steps, fs.journal, |old(fs.journal)|)
    ensures r.Success? && regenerate ==>
      Regenerated(
        fs.commands[|old(fs.commands)|..], host, BootloaderWrite in EditKinds(plan.steps),
        InitramfsWrite in EditKinds(plan.steps))
    ensures r.Success? && old(fs.Quiet(TargetSet(plan.steps))) && DistinctEdits(plan.steps) ==>
      AllDone(
        plan.steps, host, config, sha, old(fs.state), fs.state, ManifestOf(fs.state, roots, id),
        ReadsExactly(host, old(fs.Calm())))
    ensures old(fs.Calm()) && old(fs.Quiet(TargetSet(plan.steps)))
            && PhaseAPossible(plan, host, config, roots, id, old(fs.state))
            ==> r.Success?
    ensures forall j | 0 <= j < |plan.steps| && IsEdit(plan.steps[j].kind) && plan.steps[j].touches != []
        && ChangedSince(roots, id, sha, seen, plan.steps[j].touches[0], fs.journal, |old(fs.journal)|) ::
      r.Failure? && !Logged(fs.journal, |old(fs.journal)|, plan.steps[j].touches[0])
    ensures old(fs.Calm()) && r.Failure? && HasManifest(fs.state, roots, id)
            && WorkableOnceTaken(roots, id, plan.steps, host, config, fs.journal, |old(fs.journal)|)
            ==> r.error.HashMismatch?
  {
    hide FileSystem.OnRecord, Keeps, AddsNothing, AddsOnlyIn, Rewrites, AllDone, PhaseABounds, Snapped, Taken;
    hide AllLogged, StepReady;
    hide AllEditable, AllowedAtStart, Capturable, FreshId, CaptureManifest, Run.Guarded, Run.Contains, Targets;
    hide TargetSet, FileSystem.Quiet, Run.KnowsHostOnly, WorkableOnceTaken, DistinctEdits, ChangedSince, Logged;
    hide BuildPendingPlan, Roots.Protected, Run.Open, EditKinds, AllWorkable, Same, Regenerated;
    ghost var base, n, already := fs.state, |fs.journal|, fs.commands;
    var captured;
    ghost var run;
    captured, seen, run := ExecuteSnapshotStep(fs, roots, sha, plan, host, id);
    ghost var mid, taken := fs.state, fs.journal;
    SnappedBounds(roots, sha, plan, host, base, n, run, seen, taken, mid);
    if captured.Failure? {
      NoneWritten(roots, sha, plan, host, id, base, mid, taken, n, seen);
      return Failure(captured.error), seen;
    }
    var manifest := captured.value;
    SnappedRun(sha, plan, host, base, n, run, seen, taken, mid);
    EveryStepReady(run, sha, plan, host, seen, mid);
    if run.quiet {
      TargetsUntilEdits(sha, plan, host, base, n, run, seen, taken, mid);
      AllowedAfterCapture(sha, plan, host, id, seen, mid);
      if AllEditable(plan.steps, host, config, base) {
        EditableAfterCapture(plan.steps, host, config, base, mid);
      }
    }
    var pending := MakePendingPlan(plan, host, config, id);
    ghost var exact := ReadsExactly(host, fs.Calm());
    r := FinishPhaseA(fs, roots, sha, plan, host, config, id, regenerate, manifest, pending, run, run.start, already);
    StateRootUntilEdits(sha, plan, host, base, n, run, seen, taken, mid);
    FinishedBounds(roots, sha, plan, host, base, n, run, seen, taken, fs.journal, mid, fs.state);
    ContainsManifest(run, fs.state);
    NoneWritten(roots, sha, plan, host, id, base, fs.state, fs.journal, n, seen);
    if WorkableOnceTaken(roots, id, plan.steps, host, config, fs.journal, n) {
      WorkableInRun(run, plan.steps, host, config, fs.journal, n);
    }
    if r.Success? {
      AllLoggedSooner(plan.steps, fs.journal, |taken|, n);
      if run.quiet && DistinctEdits(plan.steps) {
        SameToday(plan.steps, base, mid, fs.state);
        EditsReachBack(
          plan.steps, host, config, sha, base, mid, fs.state, fs.state, ManifestOf(fs.state, roots, id), exact);
        AllDoneWeaker(
          plan.steps, host, config, sha, base, fs.state, ManifestOf(fs.state, roots, id), exact,
          ReadsExactly(host, old(fs.Calm())));
      }
    }
  }
}
