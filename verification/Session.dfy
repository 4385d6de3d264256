/** A run of the executor that works on one snapshot, and what each of its steps preserves. */
module Session {
  import opened Wrappers
  import opened Paths
  import opened Records
  import opened Manifest
  import opened Store
  import opened Layout
  import opened AtomicWrite

  /**
   * A run started from disk `base` with `start` operations on record. It may change host files in
   * `scope` and looks at `inputs` besides. In a run that `checks`, files that existed at capture are
   * only written after a look at them; in one that is `covered`, the manifest has an entry for all it
   * writes; and in a `quiet` one others leave the files alone that it knows.
   */
  datatype Run = Run(
    roots: Roots, id: string, sha: Contents -> Digest, base: Disk, scope: set<Path>, inputs: set<Path>, start: nat,
    checks: bool, covered: bool, quiet: bool)
  {
    ghost function Known(): set<Path> {
      scope + inputs
    }

    /** The run is made on this store, with this hash. */
    ghost predicate Uses(fs: FileSystem, hash: Contents -> Digest)
      reads fs
    {
      roots == fs.reserved && sha == hash && (quiet ==> covered && KnowsHostOnly() && fs.Quiet(Known()))
    }

    ghost predicate KnowsHostOnly() {
      forall p | p in Known() :: !roots.Protected(p)
    }

    /** The disk as the run may find it or leave it: every snapshot kept, and none added. */
    ghost predicate Contains(d: Disk) {
      && HasManifest(base, roots, id) && HasManifest(d, roots, id)
      && Keeps(roots, base, d) && AddsNothing(roots, base, d)
      && (covered ==> SameCount(ManifestOf(base, roots, id), ManifestOf(d, roots, id)))
    }

    /** `m`, the run's own copy of the manifest, has only been added to since it was on disk. */
    ghost predicate Open(d: Disk, m: SnapshotManifest) {
      && Contains(d) && Rewrites(roots, ManifestOf(d, roots, id), m)
      && (covered ==> SameCount(ManifestOf(d, roots, id), m))
    }

    /** The run may write host file `p`: it is in scope and the manifest on disk has an entry for it. */
    ghost predicate MayWrite(d: Disk, p: Path) {
      && !roots.Protected(p) && p in scope && HasManifest(d, roots, id)
      && (covered ==> Covers(ManifestOf(d, roots, id), p))
    }

    /** The operation found a fit disk, and changed only a record or a file it may write. */
    ghost predicate EventGuarded(e: Event) {
      Contains(e.before) && (e.path.Some? ==> roots.Protected(e.path.value) || MayWrite(e.before, e.path.value))
    }

    /** If `e` comes next and writes a captured host file, the operation before it has looked. */
    ghost predicate LooksFirst(journal: seq<Event>, e: Event) {
      CheckedWrite(roots, sha, id, journal + [e], start, |journal|)
    }

    ghost predicate Guarded(journal: seq<Event>) {
      && start <= |journal|
      && forall k | start <= k < |journal| ::
           EventGuarded(journal[k]) && (checks ==> CheckedWrite(roots, sha, id, journal, start, k))
    }
  }

  /** If operation `k` wrote a captured host file, the one before it, not before `n`, found the captured content. */
  ghost predicate CheckedWrite(
    roots: Roots, sha: Contents -> Digest, id: string, journal: seq<Event>, n: nat, k: nat)
    requires k < |journal|
  {
    var e := journal[k];
    e.path.Some? && !roots.Protected(e.path.value) && HasManifest(e.before, roots, id)
    && NeedsCheck(ManifestOf(e.before, roots, id), e.path.value) ==>
      && k > n && HasManifest(journal[k - 1].before, roots, id)
      && WriteAllowed(journal[k - 1].before, sha, ManifestOf(e.before, roots, id), e.path.value)
  }

  /** Nothing but a changed content can stop a write of `target` here. */
  ghost predicate Writable(roots: Roots, id: string, d: Disk, target: Path) {
    && HasParent(d, target)
    && (HasManifest(d, roots, id) && NeedsCheck(ManifestOf(d, roots, id), target) ==> target in d.files)
  }

  /** A step's targets are in the scope of the run and covered by the manifest on disk. */
  ghost predicate StepReady(run: Run, d: Disk, step: PlannedStep) {
    forall t | t in step.touches :: run.MayWrite(d, t)
  }

  /** What a step of the run does, whether or not it succeeds. */
  ghost predicate StepEffect(
    run: Run, d: Disk, later: Disk, m: SnapshotManifest, mLater: SnapshotManifest, paths: set<Path>)
  {
    && HasManifest(d, run.roots, run.id)
    && run.Open(later, mLater)
    && Rewrites(run.roots, m, mLater)
    && Rewrites(run.roots, ManifestOf(d, run.roots, run.id), ManifestOf(later, run.roots, run.id))
    && KeepsEntries(m, mLater, paths)
    && (run.covered ==> SameCount(m, mLater))
    && OwnFrame(run.roots, d, later)
    && (run.quiet ==> ChangesOnly(run.Known(), d, later, paths))
  }

  ghost predicate SameCount(m: SnapshotManifest, mLater: SnapshotManifest) {
    |mLater.entries| == |m.entries|
  }

  /** Virtu's directories stay, and below the state root no file changes. */
  ghost predicate OwnFrame(roots: Roots, d: Disk, later: Disk) {
    && (forall p | Under(roots.state, p) && !Under(roots.snapshots, p) :: Same(d, later, p))
    && (forall p | roots.Protected(p) && p in d.dirs :: p in later.dirs)
  }

  /** Of the `known` files only `paths` change, and no directory goes away. */
  ghost predicate ChangesOnly(known: set<Path>, d: Disk, later: Disk, paths: set<Path>) {
    (forall p | p in known && p !in paths :: Same(d, later, p)) && d.dirs <= later.dirs
  }

  /** Entries for other paths are the same, post-edit hash included. */
  ghost predicate KeepsEntries(m: SnapshotManifest, mLater: SnapshotManifest, paths: set<Path>) {
    forall q | q !in paths && Covers(m, q) :: EntryFor(mLater, q) == EntryFor(m, q)
  }

  /** Known files outside `gone` stay, with their executable mark. */
  ghost predicate Stays(known: set<Path>, d: Disk, later: Disk, gone: set<Path>) {
    forall p | p in known && p !in gone ::
      (p in d.files ==> p in later.files) && (p in d.executable ==> p in later.executable)
  }

  /** ... and nobody defines or removes a domain. */
  ghost predicate StaysPut(run: Run, d: Disk, later: Disk) {
    run.quiet ==> Stays(run.Known(), d, later, {}) && later.domains == d.domains
  }

  lemma EffectIsOpen(run: Run, d: Disk, later: Disk, m: SnapshotManifest, mLater: SnapshotManifest, paths: set<Path>)
    requires StepEffect(run, d, later, m, mLater, paths)
    ensures run.Open(later, mLater) && HasManifest(d, run.roots, run.id) && HasManifest(later, run.roots, run.id)
    ensures run.quiet ==> ChangesOnly(run.Known(), d, later, paths)
    ensures Extends(m, mLater)
  {
  }

  lemma MayWriteAcross(
    run: Run, d: Disk, later: Disk, m: SnapshotManifest, mLater: SnapshotManifest, paths: set<Path>, p: Path)
    requires StepEffect(run, d, later, m, mLater, paths) && run.MayWrite(d, p)
    ensures run.MayWrite(later, p)
  {
    if run.covered {
      ExtendsCovers(ManifestOf(d, run.roots, run.id), ManifestOf(later, run.roots, run.id), p);
    }
  }

  lemma StepReadyAcross(
    run: Run, d: Disk, later: Disk, m: SnapshotManifest, mLater: SnapshotManifest, paths: set<Path>, s: PlannedStep)
    requires StepEffect(run, d, later, m, mLater, paths) && StepReady(run, d, s)
    ensures StepReady(run, later, s)
  {
    hide StepEffect, Run.MayWrite;
    forall t | t in s.touches ensures run.MayWrite(later, t) {
      MayWriteAcross(run, d, later, m, mLater, paths, t);
    }
  }

  lemma StepEffectNone(run: Run, d: Disk, m: SnapshotManifest, paths: set<Path>)
    requires run.Open(d, m)
    ensures StepEffect(run, d, d, m, m, paths)
  {
  }

  lemma ChangesOnlyTransitive(known: set<Path>, a: Disk, b: Disk, c: Disk, p: set<Path>, q: set<Path>)
    requires ChangesOnly(known, a, b, p) && ChangesOnly(known, b, c, q)
    ensures ChangesOnly(known, a, c, p + q)
  {
    forall r | r in known && r !in p + q ensures Same(a, c, r) {
      assert Same(a, b, r) && Same(b, c, r);
    }
  }

  lemma OwnFrameTransitive(roots: Roots, a: Disk, b: Disk, c: Disk)
    requires OwnFrame(roots, a, b) && OwnFrame(roots, b, c)
    ensures OwnFrame(roots, a, c)
  {
    forall r | Under(roots.state, r) && !Under(roots.snapshots, r) ensures Same(a, c, r) {
      assert Same(a, b, r) && Same(b, c, r);
    }
  }

  lemma StepEffectTransitive(
    run: Run, a: Disk, b: Disk, c: Disk, ma: SnapshotManifest, mb: SnapshotManifest, mc: SnapshotManifest,
    p: set<Path>, q: set<Path>)
    requires StepEffect(run, a, b, ma, mb, p) && StepEffect(run, b, c, mb, mc, q)
    ensures StepEffect(run, a, c, ma, mc, p + q)
  {
    hide Rewrites, OwnFrame, ChangesOnly, Keeps, AddsNothing, KeepsEntries;
    RewritesTransitive(run.roots, ma, mb, mc);
    RewritesTransitive(
      run.roots, ManifestOf(a, run.roots, run.id), ManifestOf(b, run.roots, run.id), ManifestOf(c, run.roots, run.id));
    OwnFrameTransitive(run.roots, a, b, c);
    if run.quiet {
      ChangesOnlyTransitive(run.Known(), a, b, c, p, q);
    }
    KeepsEntriesTransitive(run.roots, ma, mb, mc, p, q);
  }

  lemma KeepsEntriesTransitive(
    roots: Roots, ma: SnapshotManifest, mb: SnapshotManifest, mc: SnapshotManifest, p: set<Path>, q: set<Path>)
    requires KeepsEntries(ma, mb, p) && KeepsEntries(mb, mc, q) && Rewrites(roots, ma, mb)
    ensures KeepsEntries(ma, mc, p + q)
  {
    forall r | r !in p + q && Covers(ma, r) ensures EntryFor(mc, r) == EntryFor(ma, r) {
      ExtendsCovers(ma, mb, r);
    }
  }

  lemma StepEffectWiden(
    run: Run, d: Disk, later: Disk, m: SnapshotManifest, mLater: SnapshotManifest, p: set<Path>, q: set<Path>)
    requires StepEffect(run, d, later, m, mLater, p) && p <= q
    ensures StepEffect(run, d, later, m, mLater, q)
  {
  }

  lemma StaysTransitive(known: set<Path>, a: Disk, b: Disk, c: Disk, gone: set<Path>)
    requires Stays(known, a, b, gone) && Stays(known, b, c, gone)
    ensures Stays(known, a, c, gone)
  {
  }

  lemma StaysPutTransitive(run: Run, a: Disk, b: Disk, c: Disk)
    requires StaysPut(run, a, b) && StaysPut(run, b, c)
    ensures StaysPut(run, a, c)
  {
  }

  // ----- one operation -----

  /** What others do between two operations of the run. */
  lemma OthersStep(run: Run, d: Disk, found: Disk, m: SnapshotManifest)
    requires run.Open(d, m) && SameOwn(run.roots, d, found)
    requires run.quiet ==> HandsOff(run.Known(), d, found)
    ensures StepEffect(run, d, found, m, m, {}) && StaysPut(run, d, found)
    ensures ManifestOf(found, run.roots, run.id) == ManifestOf(d, run.roots, run.id)
  {
    OthersKeep(run.roots, d, found);
    KeepsTransitive(run.roots, run.base, d, found);
    forall p | Under(run.roots.state, p) ensures Same(d, found, p) {
      assert run.roots.Protected(p);
    }
  }

  /** Changing one host file. */
  lemma HostFileStep(run: Run, d: Disk, later: Disk, m: SnapshotManifest, mLater: SnapshotManifest, p: Path)
    requires run.Open(d, m) && run.MayWrite(d, p) && Rewrites(run.roots, m, mLater) && KeepsEntries(m, mLater, {p})
    requires run.covered ==> SameCount(m, mLater)
    requires forall q | q != p :: Same(d, later, q)
    requires d.dirs <= later.dirs
    ensures StepEffect(run, d, later, m, mLater, {p})
    ensures ManifestOf(later, run.roots, run.id) == ManifestOf(d, run.roots, run.id)
  {
    HostWriteKeeps(run.roots, d, later, p);
    KeepsTransitive(run.roots, run.base, d, later);
    var mp := run.roots.ManifestPath(run.id);
    assert Under(run.roots.snapshots, mp);
    assert Same(d, later, mp);
    RewritesTransitive(run.roots, ManifestOf(d, run.roots, run.id), m, mLater);
  }

  /** Changing no file, and removing no directory. */
  lemma DirsStep(run: Run, d: Disk, later: Disk, m: SnapshotManifest)
    requires run.Open(d, m) && later.files == d.files && d.dirs <= later.dirs
    ensures StepEffect(run, d, later, m, m, {})
    ensures ManifestOf(later, run.roots, run.id) == ManifestOf(d, run.roots, run.id)
  {
    KeepsTransitive(run.roots, run.base, d, later);
  }

  /** An operation that changes no file. */
  lemma QuietEvent(run: Run, journal: seq<Event>, found: Disk, after: Disk, m: SnapshotManifest)
    requires run.Guarded(journal) && run.Open(found, m)
    ensures run.Guarded(journal + [Event(found, after, None)]) && run.start <= |journal|
  {
    GuardedGrows(run, journal, Event(found, after, None));
  }

  lemma GuardedGrows(run: Run, journal: seq<Event>, e: Event)
    requires run.Guarded(journal) && run.EventGuarded(e)
    requires run.checks ==> run.LooksFirst(journal, e)
    ensures run.Guarded(journal + [e])
  {
    var more := journal + [e];
    forall k | run.start <= k < |more|
      ensures run.EventGuarded(more[k])
      ensures run.checks ==> CheckedWrite(run.roots, run.sha, run.id, more, run.start, k)
    {
      if k < |journal| {
        assert more[k] == journal[k];
        assert k > 0 ==> more[k - 1] == journal[k - 1];
        assert run.checks ==> CheckedWrite(run.roots, run.sha, run.id, journal, run.start, k);
      }
    }
  }

  lemma RecordRewrites(roots: Roots, m: SnapshotManifest, target: Path, hash: Digest)
    ensures Rewrites(roots, m, RecordPostEdit(m, target, hash))
    ensures KeepsEntries(m, RecordPostEdit(m, target, hash), {target})
    ensures SameCount(m, RecordPostEdit(m, target, hash))
  {
    RecordPostEditExtends(m, target, hash);
    forall q | q != target && Covers(m, q) ensures EntryFor(RecordPostEdit(m, target, hash), q) == EntryFor(m, q) {
      RecordedPostEdit(m, target, hash, q);
    }
  }

  /** The run's copy of the manifest covers what the one on disk covers, with the same captured facts. */
  lemma OpenCovers(run: Run, d: Disk, m: SnapshotManifest, p: Path)
    requires run.Open(d, m) && Covers(ManifestOf(d, run.roots, run.id), p)
    ensures Covers(m, p)
    ensures SameCapture(EntryFor(ManifestOf(d, run.roots, run.id), p).value, EntryFor(m, p).value)
  {
    ExtendsEntryFor(ManifestOf(d, run.roots, run.id), m, p);
  }

  // ----- operations inside a run -----

  method ReadFile(fs: FileSystem, path: Path, ghost run: Run, ghost m: SnapshotManifest)
    returns (r: Result<Contents, Error>)
    requires run.Uses(fs, run.sha) && run.Open(fs.state, m) && run.Guarded(fs.journal)
    modifies fs
    ensures fs.Advances() && run.Uses(fs, run.sha) && run.Guarded(fs.journal)
    ensures StepEffect(run, old(fs.state), fs.state, m, m, {}) && StaysPut(run, old(fs.state), fs.state)
    ensures ManifestOf(fs.state, run.roots, run.id) == ManifestOf(old(fs.state), run.roots, run.id)
    ensures r == if old(fs.fails(fs.ops)) then Failure(Io(path, Injected))
                 else if path in fs.state.files then Success(fs.state.files[path])
                 else Failure(Io(path, NotFound))
    ensures fs.journal == old(fs.journal) + [Event(fs.state, fs.state, None)]
  {
    hide FileSystem.OnRecord;
    OthersStep(run, fs.state, fs.Found(), m);
    r := fs.Read(path);
    QuietEvent(run, old(fs.journal), fs.state, fs.state, m);
  }

  method FileExists(fs: FileSystem, path: Path, ghost run: Run, ghost m: SnapshotManifest) returns (there: bool)
    requires run.Uses(fs, run.sha) && run.Open(fs.state, m) && run.Guarded(fs.journal)
    modifies fs
    ensures fs.Advances() && run.Uses(fs, run.sha) && run.Guarded(fs.journal)
    ensures StepEffect(run, old(fs.state), fs.state, m, m, {}) && StaysPut(run, old(fs.state), fs.state)
    ensures ManifestOf(fs.state, run.roots, run.id) == ManifestOf(old(fs.state), run.roots, run.id)
    ensures there == fs.state.Exists(path)
    ensures run.quiet && path in run.Known() ==> there == old(fs.state).Exists(path)
    ensures fs.journal == old(fs.journal) + [Event(fs.state, fs.state, None)]
  {
    hide FileSystem.OnRecord;
    OthersStep(run, fs.state, fs.Found(), m);
    there := fs.Exists(path);
    QuietEvent(run, old(fs.journal), fs.state, fs.state, m);
  }

  method HostCommand(fs: FileSystem, step: StepKind, command: string, ghost run: Run, ghost m: SnapshotManifest)
    returns (r: Outcome<Error>)
    requires run.Uses(fs, run.sha) && run.Open(fs.state, m) && run.Guarded(fs.journal)
    modifies fs
    ensures fs.Advances() && run.Uses(fs, run.sha) && run.Guarded(fs.journal)
    ensures StepEffect(run, old(fs.state), fs.state, m, m, {}) && StaysPut(run, old(fs.state), fs.state)
    ensures ManifestOf(fs.state, run.roots, run.id) == ManifestOf(old(fs.state), run.roots, run.id)
    ensures r == if old(fs.fails(fs.ops)) then Fail(CommandFailed(step)) else Pass
    ensures fs.commands == old(fs.commands) + [command]
    ensures fs.journal == old(fs.journal) + [Event(fs.state, fs.state, None)]
  {
    hide FileSystem.OnRecord;
    OthersStep(run, fs.state, fs.Found(), m);
    r := fs.RunCommand(step, command);
    QuietEvent(run, old(fs.journal), fs.state, fs.state, m);
  }

  /** A command that has been run stays on record. */
  lemma StaysOnRecord(before: seq<string>, after: seq<string>, later: seq<string>, command: string)
    requires before <= after <= later && command in after[|before|..]
    ensures command in later[|before|..]
  {
    assert after[|before|..] <= later[|before|..];
  }

  /** `create_dir_all` inside a run. */
  method MakeDirs(fs: FileSystem, path: Path, ghost run: Run, ghost m: SnapshotManifest) returns (r: Outcome<Error>)
    requires run.Uses(fs, run.sha) && run.Open(fs.state, m) && run.Guarded(fs.journal)
    modifies fs
    ensures fs.Advances() && run.Uses(fs, run.sha) && run.Guarded(fs.journal)
    ensures StepEffect(run, old(fs.state), fs.state, m, m, {}) && StaysPut(run, old(fs.state), fs.state)
    ensures ManifestOf(fs.state, run.roots, run.id) == ManifestOf(old(fs.state), run.roots, run.id)
    ensures forall p | run.roots.Protected(p) :: Same(old(fs.state), fs.state, p)
    ensures r.Pass? ==> Ancestors(path) <= fs.state.dirs
    ensures r.Fail? ==> r.error.Io?
    ensures old(fs.Calm()) ==> r.Pass?
    ensures exists found :: fs.journal == old(fs.journal) + [Event(found, fs.state, None)]
  {
    hide FileSystem.OnRecord;
    ghost var found := fs.Found();
    OthersStep(run, fs.state, found, m);
    r := fs.CreateDirAll(path);
    DirsStep(run, found, fs.state, m);
    StepEffectTransitive(run, old(fs.state), found, fs.state, m, m, m, {}, {});
    QuietEvent(run, old(fs.journal), found, fs.state, m);
  }

  /** Writing the run's manifest to disk. */
  method PersistManifest(
    fs: FileSystem, roots: Roots, id: string, m: SnapshotManifest, ghost run: Run)
    returns (r: Outcome<Error>)
    requires run.roots == roots && run.id == id
    requires run.Uses(fs, run.sha) && run.Open(fs.state, m) && run.Guarded(fs.journal)
    modifies fs
    ensures fs.Advances() && run.Uses(fs, run.sha) && run.Guarded(fs.journal)
    ensures StepEffect(run, old(fs.state), fs.state, m, m, {}) && StaysPut(run, old(fs.state), fs.state)
    ensures HasManifest(fs.state, roots, id)
    ensures ManifestOf(fs.state, roots, id) == if r.Pass? then m else ManifestOf(old(fs.state), roots, id)
    ensures forall p | roots.Protected(p) && p != roots.ManifestPath(id) :: Same(old(fs.state), fs.state, p)
    ensures r.Fail? ==> r.error.Io?
    ensures old(fs.Calm()) && roots.SnapshotDir(id) in old(fs.state).dirs ==> r.Pass?
  {
    hide FileSystem.OnRecord, StepEffect, StaysPut, Keeps, AddsNothing, Rewrites, HandsOff, Merged, Run.Guarded;
    hide Run.KnowsHostOnly;
    hide Run.LooksFirst;
    var p := roots.ManifestPath(id);
    assert p[..|p| - 1] == roots.SnapshotDir(id);
    OwnPaths(roots, id);
    ghost var start, journal, found := fs.state, fs.journal, fs.Found();
    OthersStep(run, start, found, m);
    EffectIsOpen(run, start, found, m, m, {});
    r := fs.WriteAtomic(p, ManifestFile(m));
    if r.Pass? {
      RecordLogged(run, journal, found, fs.state, p);
      ManifestStored(run, found, fs.state, m);
      TwoSteps(run, start, found, fs.state, m);
    } else {
      QuietEvent(run, journal, found, fs.state, m);
    }
  }

  lemma OwnPaths(roots: Roots, id: string)
    ensures roots.Protected(roots.ManifestPath(id)) && roots.Protected(roots.SnapshotDir(id))
  {
    assert Under(roots.snapshots, roots.ManifestPath(id)) && Under(roots.snapshots, roots.SnapshotDir(id));
  }

  /** A change of Virtu's own records. */
  lemma RecordLogged(run: Run, journal: seq<Event>, found: Disk, after: Disk, p: Path)
    requires run.Guarded(journal) && run.Contains(found) && run.roots.Protected(p)
    ensures run.Guarded(journal + [Event(found, after, Some(p))])
  {
    GuardedGrows(run, journal, Event(found, after, Some(p)));
  }

  lemma ManifestStored(run: Run, d: Disk, later: Disk, m: SnapshotManifest)
    requires run.Open(d, m) && later == d.(files := d.files[run.roots.ManifestPath(run.id) := ManifestFile(m)])
    requires run.quiet ==> run.KnowsHostOnly()
    ensures StepEffect(run, d, later, m, m, {}) && StaysPut(run, d, later)
    ensures ManifestOf(later, run.roots, run.id) == m
  {
    ManifestWriteKeeps(run.roots, d, run.id, m);
    KeepsTransitive(run.roots, run.base, d, later);
  }

  // ----- the checked write inside a run -----

  lemma WriteIsCovered(run: Run, d: Disk, m: SnapshotManifest, target: Path)
    requires run.Open(d, m) && run.MayWrite(d, target) && (run.covered || Covers(m, target))
    ensures Covers(m, target)
  {
    if run.covered {
      OpenCovers(run, d, m, target);
    }
  }

  /** Others act twice in a row. */
  lemma TwoSteps(run: Run, a: Disk, b: Disk, c: Disk, m: SnapshotManifest)
    requires StepEffect(run, a, b, m, m, {}) && StepEffect(run, b, c, m, m, {})
    requires StaysPut(run, a, b) && StaysPut(run, b, c)
    ensures StepEffect(run, a, c, m, m, {}) && StaysPut(run, a, c)
  {
    hide StepEffect, StaysPut;
    StepEffectTransitive(run, a, b, c, m, m, m, {}, {});
    StaysPutTransitive(run, a, b, c);
    var none: set<Path> := {};
    assert none + none == none;
  }

  /** A captured file that is there and may not be written has changed. */
  lemma MustHaveChanged(
    run: Run, start: Disk, first: Disk, sha: Contents -> Digest, m: SnapshotManifest, target: Path)
    requires run.covered && run.MayWrite(start, target) && run.Open(first, m) && NeedsCheck(m, target)
    requires ManifestOf(first, run.roots, run.id) == ManifestOf(start, run.roots, run.id)
    requires !WriteAllowed(first, sha, m, target)
    ensures Writable(run.roots, run.id, first, target) ==> Overwritten(first, sha, m, target)
  {
    OpenCovers(run, first, m, target);
  }

  lemma InScope(run: Run, d: Disk, target: Path)
    requires run.MayWrite(d, target)
    ensures target in run.scope && target in run.Known()
  {
  }

  /** A write without a check is of a file that did not exist at capture. */
  lemma PlainIsLogged(
    run: Run, journal: seq<Event>, found: Disk, later: Disk, m: SnapshotManifest, target: Path)
    requires run.Open(found, m) && !NeedsCheck(m, target)
    ensures run.LooksFirst(journal, Event(found, later, Some(target)))
  {
    if Covers(ManifestOf(found, run.roots, run.id), target) {
      OpenCovers(run, found, m, target);
    }
  }

  /** Where others leave the target alone, the write has the permission and the place it had at the start. */
  lemma StillWritable(
    run: Run, start: Disk, first: Disk, second: Disk, sha: Contents -> Digest, m: SnapshotManifest, target: Path)
    requires target in run.Known()
    requires HandsOff(run.Known(), start, first) && HandsOff(run.Known(), first, second)
    ensures WriteAllowed(start, sha, m, target) <==> WriteAllowed(first, sha, m, target)
    ensures Covers(m, target) && !NeedsCheck(m, target) ==> WriteAllowed(start, sha, m, target)
    ensures HasParent(start, target) ==> HasParent(first, target) && HasParent(second, target)
  {
    assert Same(start, first, target);
  }

  /** The write after a successful check is one that was checked. */
  lemma CheckIsLogged(
    run: Run, looked: seq<Event>, first: Disk, second: Disk, later: Disk, sha: Contents -> Digest,
    m: SnapshotManifest, target: Path)
    requires run.start < |looked| && looked[|looked| - 1].before == first
    requires run.sha == sha && run.Open(first, m) && run.Open(second, m) && WriteAllowed(first, sha, m, target)
    ensures run.LooksFirst(looked, Event(second, later, Some(target)))
  {
    var more := looked + [Event(second, later, Some(target))];
    assert more[|looked| - 1] == looked[|looked| - 1];
    var onDisk := ManifestOf(second, run.roots, run.id);
    if NeedsCheck(onDisk, target) {
      OpenCovers(run, second, m, target);
    }
  }

  /** A write, or a failure to write, by a run that has reached `found`. */
  lemma FinishWrite(
    run: Run, journal: seq<Event>, start: Disk, found: Disk, later: Disk, sha: Contents -> Digest,
    m: SnapshotManifest, target: Path, content: Contents, passed: bool)
    requires run.Guarded(journal) && run.MayWrite(start, target)
    requires StepEffect(run, start, found, m, m, {}) && StaysPut(run, start, found)
    requires if passed then Stores(Event(found, later, Some(target)), target, content) else later == found
    requires run.checks && passed ==> run.LooksFirst(journal, Event(found, later, Some(target)))
    ensures run.Guarded(journal + [Event(found, later, if passed then Some(target) else None)])
    ensures StaysPut(run, start, later)
    ensures StepEffect(
      run, start, later, m, if passed then RecordPostEdit(m, target, sha(content)) else m, {target})
    ensures ManifestOf(later, run.roots, run.id) == ManifestOf(found, run.roots, run.id)
  {
    hide StepEffect, Run.Guarded, Run.LooksFirst, RecordPostEdit, Keeps, AddsNothing, Rewrites;
    EffectIsOpen(run, start, found, m, m, {});
    MayWriteAcross(run, start, found, m, m, {}, target);
    if passed {
      var mLater := RecordPostEdit(m, target, sha(content));
      RecordRewrites(run.roots, m, target, sha(content));
      HostFileStep(run, found, later, m, mLater, target);
      StepEffectTransitive(run, start, found, later, m, m, mLater, {}, {target});
      GuardedGrows(run, journal, Event(found, later, Some(target)));
      assert {} + {target} == {target};
    } else {
      StepEffectWiden(run, start, later, m, m, {}, {target});
      QuietEvent(run, journal, found, later, m);
    }
  }

  /** `snapshot_then_write` inside a run. */
  method WriteTarget(
    fs: FileSystem, sha: Contents -> Digest, m: SnapshotManifest, target: Path, content: Contents, ghost run: Run)
    returns (r: Outcome<Error>, mLater: SnapshotManifest)
    requires run.Uses(fs, sha) && run.Open(fs.state, m) && run.Guarded(fs.journal) && run.MayWrite(fs.state, target)
    requires run.covered || Covers(m, target)
    modifies fs
    ensures fs.Advances() && run.Uses(fs, sha) && run.Guarded(fs.journal)
    ensures StepEffect(run, old(fs.state), fs.state, m, mLater, {target}) && StaysPut(run, old(fs.state), fs.state)
    ensures ManifestOf(fs.state, run.roots, run.id) == ManifestOf(old(fs.state), run.roots, run.id)
    ensures r.Pass? && run.quiet ==> Written(old(fs.state), fs.state, sha, m, mLater, target, content)
    ensures mLater == if r.Pass? then RecordPostEdit(m, target, sha(content)) else m
    ensures r.Fail? ==> r.error.Io? || r.error.HashMismatch?
    ensures r.Pass? ==> fs.journal != [] && Stores(fs.journal[|fs.journal| - 1], target, content)
    ensures r.Pass? ==> Logged(fs.journal, |old(fs.journal)|, target)
    ensures r.Fail? ==> forall k | |old(fs.journal)| <= k < |fs.journal| :: fs.journal[k].path.None?
    ensures old(fs.Calm()) && r.Fail? && run.covered ==>
      && |fs.journal| > |old(fs.journal)|
      && (r.error.HashMismatch? || !Writable(run.roots, run.id, fs.journal[|fs.journal| - 1].before, target))
    ensures run.quiet && old(fs.Calm()) && WriteAllowed(old(fs.state), sha, m, target)
            && HasParent(old(fs.state), target)
            ==> r.Pass?
    ensures mLater.restoreActions == m.restoreActions
  {
    hide FileSystem.OnRecord, StepEffect, StaysPut, Keeps, AddsNothing, Rewrites, HandsOff, Merged;
    hide SameOwn, NeedsCheck, Covers, EntryFor, Local, KeepsEntries, OwnFrame, ChangesOnly, SameCount;
    hide Run.Open, Run.Guarded, Run.MayWrite, Run.LooksFirst, Writable, Logged, WriteAllowed, HasParent;
    hide Run.KnowsHostOnly;
    ghost var start, journal, first := fs.state, fs.journal, fs.Found();
    ghost var second := fs.Others(fs.ops + 1, first);
    WriteIsCovered(run, start, m, target);
    OthersStep(run, start, first, m);
    EffectIsOpen(run, start, first, m, m, {});
    OthersStep(run, first, second, m);
    TwoSteps(run, start, first, second, m);
    QuietEvent(run, journal, first, first, m);
    r, mLater := SnapshotThenWrite(fs, sha, m, target, content);
    if run.quiet {
      InScope(run, start, target);
      StillWritable(run, start, first, second, sha, m, target);
    }
    if !NeedsCheck(m, target) {
      PlainIsLogged(run, journal, first, fs.state, m, target);
      WritableHere(run, first, target);
      FinishWrite(run, journal, start, first, fs.state, sha, m, target, content, r.Pass?);
    } else if fs.journal == journal + [Event(first, first, None)] {
      if run.covered && !WriteAllowed(first, sha, m, target) {
        MustHaveChanged(run, start, first, sha, m, target);
      }
      StepEffectWiden(run, start, first, m, m, {}, {target});
    } else {
      ghost var looked := journal + [Event(first, first, None)];
      assert journal + [Event(first, first, None), Event(second, fs.state, if r.Pass? then Some(target) else None)]
        == looked + [Event(second, fs.state, if r.Pass? then Some(target) else None)];
      WritableHere(run, second, target);
      CheckIsLogged(run, looked, first, second, fs.state, sha, m, target);
      FinishWrite(run, looked, start, second, fs.state, sha, m, target, content, r.Pass?);
    }
    if r.Pass? {
      LoggedLast(fs.journal, |journal|, target);
    }
  }

  lemma WritableHere(run: Run, d: Disk, target: Path)
    ensures Writable(run.roots, run.id, d, target) ==> HasParent(d, target)
  {
  }

  lemma LoggedLast(journal: seq<Event>, n: nat, target: Path)
    requires n < |journal| && journal[|journal| - 1].path == Some(target)
    ensures Logged(journal, n, target)
  {
  }
}
