/** Putting files in place during Phase B: declare, write through the snapshot, mark executable. */
module Staging {
  import opened Wrappers
  import opened Paths
  import opened Records
  import opened Manifest
  import opened Store
  import opened Layout
  import opened AtomicWrite
  import opened Session
  import opened HostWrites

  ghost predicate Ready(run: Run, d: Disk, writes: seq<Write>) {
    forall w | w in writes :: run.MayWrite(d, w.path)
  }

  /** Every file that existed at capture still has the captured digest. */
  ghost predicate AllAllowed(d: Disk, sha: Contents -> Digest, m: SnapshotManifest, writes: seq<Write>) {
    forall w | w in writes :: WriteAllowed(d, sha, m, w.path)
  }

  /** The files are in place and the manifest has their digests. */
  ghost predicate Recorded(d: Disk, sha: Contents -> Digest, m: SnapshotManifest, writes: seq<Write>) {
    forall w | w in writes :: RecordedOne(d, sha, m, w)
  }

  ghost predicate RecordedOne(d: Disk, sha: Contents -> Digest, m: SnapshotManifest, w: Write) {
    && w.path in d.files && d.files[w.path] == w.content
    && Covers(m, w.path) && EntryFor(m, w.path).value.postEdit == Some(sha(w.content))
  }

  lemma WriteAllowedKept(
    d: Disk, later: Disk, sha: Contents -> Digest, m: SnapshotManifest, mLater: SnapshotManifest, p: Path)
    requires Same(d, later, p) && Extends(m, mLater) && Covers(m, p)
    ensures WriteAllowed(d, sha, m, p) <==> WriteAllowed(later, sha, mLater, p)
  {
    ExtendsEntryFor(m, mLater, p);
  }

  /** A step that leaves `p` alone leaves the permission to write it as it was. */
  lemma WriteAllowedAcross(
    run: Run, d: Disk, later: Disk, sha: Contents -> Digest, m: SnapshotManifest, mLater: SnapshotManifest,
    paths: set<Path>, p: Path)
    requires StepEffect(run, d, later, m, mLater, paths) && run.quiet
    requires p in run.Known() && p !in paths && Covers(m, p)
    ensures WriteAllowed(d, sha, m, p) <==> WriteAllowed(later, sha, mLater, p)
  {
    assert Same(d, later, p);
    WriteAllowedKept(d, later, sha, m, mLater, p);
  }

  lemma RecordedAcross(
    run: Run, d: Disk, later: Disk, sha: Contents -> Digest, m: SnapshotManifest, mLater: SnapshotManifest,
    paths: set<Path>, w: Write)
    requires StepEffect(run, d, later, m, mLater, paths) && run.quiet
    requires w.path in run.Known() && w.path !in paths
    requires RecordedOne(d, sha, m, w)
    ensures RecordedOne(later, sha, mLater, w)
  {
    assert Same(d, later, w.path);
    ExtendsCovers(m, mLater, w.path);
  }

  lemma WrittenIsRecorded(
    d: Disk, later: Disk, sha: Contents -> Digest, m: SnapshotManifest, mLater: SnapshotManifest, w: Write)
    requires Written(d, later, sha, m, mLater, w.path, w.content)
    ensures RecordedOne(later, sha, mLater, w)
  {
    RecordedPostEdit(m, w.path, sha(w.content), w.path);
  }

  /** Where the written files are left alone, permission and coverage are the same. */
  lemma NothingChangesNothing(
    run: Run, d: Disk, later: Disk, sha: Contents -> Digest, m: SnapshotManifest, writes: seq<Write>)
    requires StepEffect(run, d, later, m, m, {}) && Ready(run, d, writes)
    ensures Ready(run, later, writes)
    ensures run.quiet ==> (AllAllowed(d, sha, m, writes) <==> AllAllowed(later, sha, m, writes))
  {
    hide StepEffect, WriteAllowed;
    forall w | w in writes ensures run.MayWrite(later, w.path) {
      MayWriteAcross(run, d, later, m, m, {}, w.path);
    }
    if run.quiet {
      EffectIsOpen(run, d, later, m, m, {});
      forall w | w in writes ensures WriteAllowed(d, sha, m, w.path) <==> WriteAllowed(later, sha, m, w.path) {
        assert run.MayWrite(d, w.path) && Same(d, later, w.path);
        SamePermission(d, later, sha, m, w.path);
      }
    }
  }

  lemma SamePermission(d: Disk, later: Disk, sha: Contents -> Digest, m: SnapshotManifest, p: Path)
    requires Same(d, later, p)
    ensures WriteAllowed(d, sha, m, p) <==> WriteAllowed(later, sha, m, p)
  {
  }

  // ----- declaring -----

  /** Declares a path the manifest may not know yet; one it knows already is left as it is. */
  method DeclareTarget(m: SnapshotManifest, target: Path, kind: StepKind, ghost run: Run, ghost d: Disk)
    returns (mLater: SnapshotManifest)
    requires run.Open(d, m) && run.MayWrite(d, target)
    ensures StepEffect(run, d, d, m, mLater, {})
    ensures Covers(mLater, target) && (Covers(m, target) ==> mLater == m)
    ensures run.covered ==> Covers(m, target)
    ensures mLater.restoreActions == m.restoreActions
  {
    if run.covered {
      OpenCovers(run, d, m, target);
    }
    var name := SanitizePath(target);
    mLater := DeclareCreatedEntry(m, target, [FILES_SUBDIR, name], kind);
    DeclaredEffect(run, d, m, mLater, target);
  }

  lemma DeclaredEffect(run: Run, d: Disk, m: SnapshotManifest, mLater: SnapshotManifest, target: Path)
    requires run.Open(d, m) && !run.roots.Protected(target) && Extends(m, mLater)
    requires mLater == m || (!run.covered && exists e :: mLater == PushEntry(m, e) && TidyEntry(run.roots, e))
    ensures StepEffect(run, d, d, m, mLater, {})
  {
    RewritesTransitive(run.roots, ManifestOf(d, run.roots, run.id), m, mLater);
    forall q | Covers(m, q) ensures EntryFor(mLater, q) == EntryFor(m, q) {
      if mLater != m {
        PushedBehind(m, mLater, q);
      }
    }
  }

  lemma PushedBehind(m: SnapshotManifest, mLater: SnapshotManifest, q: Path)
    requires Covers(m, q) && m.entries <= mLater.entries
    ensures EntryFor(mLater, q) == EntryFor(m, q)
  {
    assert IndexOf(mLater.entries, q) == IndexOf(m.entries, q);
  }

  method DeclareAll(paths: seq<Path>, kind: StepKind, m: SnapshotManifest, ghost run: Run, ghost d: Disk)
    returns (mLater: SnapshotManifest)
    requires run.Open(d, m) && forall p | p in paths :: run.MayWrite(d, p)
    ensures StepEffect(run, d, d, m, mLater, {})
    ensures forall p | p in paths :: Covers(mLater, p)
    ensures (forall p | p in paths :: Covers(m, p)) ==> mLater == m
    ensures run.covered ==> forall p | p in paths :: Covers(m, p)
    ensures mLater.restoreActions == m.restoreActions
  {
    hide StepEffect, Run.Open, Run.MayWrite;
    mLater := m;
    ghost var none: set<Path> := {};
    StepEffectNone(run, d, m, {});
    for i := 0 to |paths|
      invariant StepEffect(run, d, d, m, mLater, {})
      invariant forall p | p in paths[..i] :: Covers(mLater, p)
      invariant run.covered ==> forall p | p in paths[..i] :: Covers(m, p)
      invariant (forall p | p in paths :: Covers(m, p)) ==> mLater == m
      invariant mLater.restoreActions == m.restoreActions
    {
      ghost var before := mLater;
      assert paths[i] in paths;
      EffectIsOpen(run, d, d, m, before, {});
      mLater := DeclareTarget(mLater, paths[i], kind, run, d);
      StepEffectTransitive(run, d, d, d, m, before, mLater, {}, {});
      assert none + none == none;
      EffectIsOpen(run, d, d, before, mLater, {});
      forall p | p in paths[..i + 1] ensures Covers(mLater, p) {
        if p in paths[..i] {
          ExtendsCovers(before, mLater, p);
        }
      }
      if run.covered {
        SameEntries(run, d, m, before, {}, paths[i]);
      }
    }
  }

  /** A covered run declares nothing new. */
  lemma SameEntries(
    run: Run, d: Disk, m: SnapshotManifest, mLater: SnapshotManifest, paths: set<Path>, p: Path)
    requires StepEffect(run, d, d, m, mLater, paths) && run.covered && Covers(mLater, p)
    ensures Covers(m, p)
  {
    var i := IndexOf(mLater.entries, p);
    assert SameCapture(m.entries[i], mLater.entries[i]);
    CoversAt(m, i);
  }

  // ----- writing -----

  /** The files hold what was to be written, by leave of the captured state, and the manifest says so. */
  ghost predicate WroteAll(
    run: Run, start: Disk, d: Disk, sha: Contents -> Digest, m: SnapshotManifest, mLater: SnapshotManifest,
    writes: seq<Write>)
  {
    && HostIs(run.scope, d, Apply(start.files, writes))
    && Recorded(d, sha, mLater, writes)
    && AllAllowed(start, sha, m, writes)
  }

  lemma WriteAllStep(
    run: Run, start: Disk, before: Disk, later: Disk, sha: Contents -> Digest,
    m: SnapshotManifest, mBefore: SnapshotManifest, mLater: SnapshotManifest, done: seq<Write>, w: Write)
    requires run.quiet
    requires forall v | v in done :: v.path != w.path && v.path in run.scope
    requires w.path in run.scope && Covers(m, w.path)
    requires StepEffect(run, start, before, m, mBefore, WritePaths(done))
    requires StepEffect(run, before, later, mBefore, mLater, {w.path})
    requires Written(before, later, sha, mBefore, mLater, w.path, w.content)
    requires WroteAll(run, start, before, sha, m, mBefore, done)
    ensures WroteAll(run, start, later, sha, m, mLater, done + [w])
  {
    hide StepEffect, Apply, RecordedOne, WriteAllowed;
    EffectIsOpen(run, before, later, mBefore, mLater, {w.path});
    HostIsStep(run.scope, before, later, Apply(start.files, done), w);
    ApplySnoc(start.files, done, w);
    WrittenIsRecorded(before, later, sha, mBefore, mLater, w);
    NotAmong(done, w.path);
    WriteAllowedAcross(run, start, before, sha, m, mBefore, WritePaths(done), w.path);
    forall v | v in done + [w] ensures RecordedOne(later, sha, mLater, v) && WriteAllowed(start, sha, m, v.path) {
      if v in done {
        assert RecordedOne(before, sha, mBefore, v);
        RecordedAcross(run, before, later, sha, mBefore, mLater, {w.path}, v);
      }
    }
  }

  lemma PrefixPaths(writes: seq<Write>, i: nat)
    requires i < |writes|
    ensures WritePaths(writes[..i]) + {writes[i].path} <= WritePaths(writes)
  {
    assert writes[i] in writes && forall w | w in writes[..i] :: w in writes;
  }

  lemma NotAmong(writes: seq<Write>, p: Path)
    requires forall w | w in writes :: w.path != p
    ensures p !in WritePaths(writes)
  {
  }

  lemma NothingWritten(run: Run, d: Disk, sha: Contents -> Digest, m: SnapshotManifest)
    ensures WritePaths([]) == {} && WroteAll(run, d, d, sha, m, m, [])
  {
  }

  lemma InScopeOf(run: Run, d: Disk, writes: seq<Write>)
    requires Ready(run, d, writes)
    ensures forall w | w in writes :: w.path in run.scope
  {
  }

  /** The loop's next write may be made, and with the same permission as at the start. */
  lemma NextMayWrite(
    run: Run, start: Disk, before: Disk, sha: Contents -> Digest, m: SnapshotManifest, mBefore: SnapshotManifest,
    writes: seq<Write>, i: nat)
    requires i < |writes| && DistinctWrites(writes) && Ready(run, start, writes) && run.Open(start, m)
    requires run.covered || forall w | w in writes :: Covers(m, w.path)
    requires StepEffect(run, start, before, m, mBefore, WritePaths(writes[..i]))
    ensures var w, done := writes[i], writes[..i];
      && run.MayWrite(before, w.path) && run.Open(before, mBefore)
      && Covers(m, w.path) && Covers(mBefore, w.path)
      && (forall v | v in done :: v.path != w.path && v.path in run.scope) && w.path in run.scope
      && (run.quiet ==> (WriteAllowed(start, sha, m, w.path) <==> WriteAllowed(before, sha, mBefore, w.path)))
  {
    hide StepEffect, WriteAllowed;
    var w, done := writes[i], writes[..i];
    assert w in writes && forall v | v in done :: v in writes;
    InScopeOf(run, start, writes);
    EffectIsOpen(run, start, before, m, mBefore, WritePaths(done));
    MayWriteAcross(run, start, before, m, mBefore, WritePaths(done), w.path);
    if run.covered {
      OpenCovers(run, start, m, w.path);
    }
    ExtendsCovers(m, mBefore, w.path);
    NotAmong(done, w.path);
    if run.quiet {
      WriteAllowedAcross(run, start, before, sha, m, mBefore, WritePaths(done), w.path);
    }
  }

  /** Writes the files in order; each is checked against the captured state first. */
  method WriteAll(fs: FileSystem, sha: Contents -> Digest, m: SnapshotManifest, writes: seq<Write>, ghost run: Run)
    returns (r: Outcome<Error>, mLater: SnapshotManifest)
    requires run.Uses(fs, sha) && run.Open(fs.state, m) && run.Guarded(fs.journal)
    requires Ready(run, fs.state, writes) && DistinctWrites(writes)
    requires run.covered || forall w | w in writes :: Covers(m, w.path)
    modifies fs
    ensures fs.Advances() && run.Uses(fs, sha) && run.Guarded(fs.journal)
    ensures StepEffect(run, old(fs.state), fs.state, m, mLater, WritePaths(writes))
    ensures StaysPut(run, old(fs.state), fs.state)
    ensures mLater.restoreActions == m.restoreActions
    ensures r.Pass? && run.quiet ==> WroteAll(run, old(fs.state), fs.state, sha, m, mLater, writes)
    ensures r.Fail? ==> r.error.Io? || r.error.HashMismatch?
    ensures run.quiet && old(fs.Calm()) && AllAllowed(old(fs.state), sha, m, writes)
            && (forall w | w in writes :: HasParent(old(fs.state), w.path))
            ==> r.Pass?
  {
    hide FileSystem.OnRecord, StepEffect, Keeps, Rewrites, Extends, KeepsEntries, AddsNothing, Run.Open, Run.Guarded;
    hide Run.MayWrite;
    hide WriteAllowed, Written, WritePaths, StaysPut, WroteAll, Ready, ChangesOnly;
    ghost var start := fs.state;
    mLater := m;
    StepEffectNone(run, start, m, {});
    NothingWritten(run, start, sha, m);
    StaysItself(run, start);
    assert writes[..0] == [];
    for i := 0 to |writes|
      invariant fs.Advances() && run.Uses(fs, sha) && run.Guarded(fs.journal)
      invariant StepEffect(run, start, fs.state, m, mLater, WritePaths(writes[..i]))
      invariant StaysPut(run, start, fs.state)
      invariant mLater.restoreActions == m.restoreActions
      invariant run.quiet ==> WroteAll(run, start, fs.state, sha, m, mLater, writes[..i])
      invariant run.quiet ==> start.dirs <= fs.state.dirs
    {
      var w := writes[i];
      assert w in writes;
      ghost var done := writes[..i];
      ghost var before, mBefore := fs.state, mLater;
      NextMayWrite(run, start, before, sha, m, mBefore, writes, i);
      r, mLater := WriteTarget(fs, sha, mLater, w.path, w.content, run);
      StepEffectTransitive(run, start, before, fs.state, m, mBefore, mLater, WritePaths(done), {w.path});
      StaysPutTransitive(run, start, before, fs.state);
      DirsStay(run, before, fs.state, mBefore, mLater, {w.path});
      WritePathsSnoc(done, w);
      assert writes[..i + 1] == done + [w];
      if r.Fail? {
        PrefixPaths(writes, i);
        StepEffectWiden(run, start, fs.state, m, mLater, WritePaths(done) + {w.path}, WritePaths(writes));
        return;
      }
      if run.quiet {
        WriteAllStep(run, start, before, fs.state, sha, m, mBefore, mLater, done, w);
      }
    }
    assert writes[..|writes|] == writes;
    r := Pass;
  }

  lemma DirsStay(run: Run, d: Disk, later: Disk, m: SnapshotManifest, mLater: SnapshotManifest, paths: set<Path>)
    requires StepEffect(run, d, later, m, mLater, paths)
    ensures run.quiet ==> d.dirs <= later.dirs
  {
  }

  lemma StaysItself(run: Run, d: Disk)
    ensures StaysPut(run, d, d)
  {
  }

  /** A single created file: its directory, its manifest entry, its content, in that order. */
  method StageFile(
    fs: FileSystem, sha: Contents -> Digest, w: Write, kind: StepKind, m: SnapshotManifest, ghost run: Run)
    returns (r: Outcome<Error>, mLater: SnapshotManifest)
    requires run.Uses(fs, sha) && run.Open(fs.state, m) && run.Guarded(fs.journal) && run.MayWrite(fs.state, w.path)
    modifies fs
    ensures fs.Advances() && run.Uses(fs, sha) && run.Guarded(fs.journal)
    ensures StepEffect(run, old(fs.state), fs.state, m, mLater, {w.path})
    ensures StaysPut(run, old(fs.state), fs.state)
    ensures mLater.restoreActions == m.restoreActions
    ensures r.Pass? && run.quiet ==>
      RecordedOne(fs.state, sha, mLater, w) && WriteAllowed(old(fs.state), sha, m, w.path)
    ensures r.Fail? ==> r.error.Io? || r.error.HashMismatch?
    ensures run.quiet && old(fs.Calm()) && WriteAllowed(old(fs.state), sha, m, w.path) ==> r.Pass?
  {
    hide FileSystem.OnRecord, StepEffect, Keeps, Rewrites, Extends, KeepsEntries, AddsNothing, Run.Open, Run.Guarded;
    hide Run.MayWrite;
    hide WriteAllowed, Written, StaysPut, ChangesOnly, RecordedOne;
    StepEffectNone(run, fs.state, m, {w.path});
    StaysItself(run, fs.state);
    mLater := m;
    ghost var start := fs.state;
    if w.path != [] {
      var parent := w.path[..|w.path| - 1];
      r := MakeDirs(fs, parent, run, m);
      StepEffectWiden(run, start, fs.state, m, m, {}, {w.path});
      if r.Fail? {
        return;
      }
      assert parent[..|parent|] == parent;
      AncestorsAt(parent, |parent|);
      LeavesPermission(run, start, fs.state, sha, m, w.path);
    }
    ghost var ready := fs.state;
    EffectIsOpen(run, start, ready, m, m, {w.path});
    MayWriteAcross(run, start, ready, m, m, {w.path}, w.path);
    var declared := DeclareTarget(m, w.path, kind, run, ready);
    EffectIsOpen(run, ready, ready, m, declared, {});
    r, mLater := WriteTarget(fs, sha, declared, w.path, w.content, run);
    assert {w.path} + {w.path} == {w.path} && {} + {w.path} == {w.path};
    StepEffectTransitive(run, ready, ready, fs.state, m, declared, mLater, {}, {w.path});
    StepEffectTransitive(run, start, ready, fs.state, m, m, mLater, {w.path}, {w.path});
    StaysPutTransitive(run, start, ready, fs.state);
    if r.Pass? && run.quiet {
      WrittenIsRecorded(ready, fs.state, sha, declared, mLater, w);
      WrittenWasAllowed(ready, fs.state, sha, declared, mLater, w);
    }
  }

  lemma WrittenWasAllowed(
    d: Disk, later: Disk, sha: Contents -> Digest, m: SnapshotManifest, mLater: SnapshotManifest, w: Write)
    requires Written(d, later, sha, m, mLater, w.path, w.content)
    ensures WriteAllowed(d, sha, m, w.path)
  {
  }

  /** A step that leaves the file alone leaves the permission to write it. */
  lemma LeavesPermission(
    run: Run, d: Disk, later: Disk, sha: Contents -> Digest, m: SnapshotManifest, p: Path)
    requires StepEffect(run, d, later, m, m, {}) && run.MayWrite(d, p)
    ensures run.quiet ==> (WriteAllowed(d, sha, m, p) <==> WriteAllowed(later, sha, m, p))
  {
    if run.quiet {
      assert Same(d, later, p);
    }
  }

  // ----- marking executable -----

  lemma MarkStep(run: Run, d: Disk, later: Disk, m: SnapshotManifest)
    requires run.Open(d, m) && later.files == d.files && later.dirs == d.dirs
    requires d.executable <= later.executable && later.domains == d.domains
    ensures StepEffect(run, d, later, m, m, {}) && StaysPut(run, d, later)
  {
    DirsStep(run, d, later, m);
  }

  /** One script is marked executable. */
  method MarkExecutable(fs: FileSystem, path: Path, ghost run: Run, ghost m: SnapshotManifest)
    returns (r: Outcome<Error>)
    requires run.Uses(fs, run.sha) && run.Open(fs.state, m) && run.Guarded(fs.journal)
    requires run.MayWrite(fs.state, path) && !run.checks
    modifies fs
    ensures fs.Advances() && run.Uses(fs, run.sha) && run.Guarded(fs.journal)
    ensures StepEffect(run, old(fs.state), fs.state, m, m, {}) && StaysPut(run, old(fs.state), fs.state)
    ensures r.Pass? ==> path in fs.state.executable
    ensures r.Fail? ==> r.error.Io?
    ensures run.quiet && old(fs.Calm()) && path in old(fs.state).files ==> r.Pass?
  {
    hide FileSystem.OnRecord, StepEffect, StaysPut, Run.MayWrite, Run.Guarded;
    ghost var start, journal, found := fs.state, fs.journal, fs.Found();
    OthersStep(run, start, found, m);
    EffectIsOpen(run, start, found, m, m, {});
    MayWriteAcross(run, start, found, m, m, {}, path);
    InScope(run, start, path);
    r := fs.SetExecutable(path);
    MarkStep(run, found, fs.state, m);
    TwoSteps(run, start, found, fs.state, m);
    if r.Pass? {
      MarkLogged(run, journal, found, fs.state, path);
    } else {
      QuietEvent(run, journal, found, fs.state, m);
    }
  }

  /** A change, without a check before it, of a file the run may write. */
  lemma MarkLogged(run: Run, journal: seq<Event>, found: Disk, after: Disk, p: Path)
    requires run.Guarded(journal) && run.Contains(found) && run.MayWrite(found, p) && !run.checks
    ensures run.Guarded(journal + [Event(found, after, Some(p))])
  {
    GuardedGrows(run, journal, Event(found, after, Some(p)));
  }

  method MarkAllExecutable(
    fs: FileSystem, paths: seq<Path>, ghost run: Run, ghost m: SnapshotManifest)
    returns (r: Outcome<Error>)
    requires run.Uses(fs, run.sha) && run.Open(fs.state, m) && run.Guarded(fs.journal)
    requires (forall p | p in paths :: run.MayWrite(fs.state, p)) && !run.checks
    modifies fs
    ensures fs.Advances() && run.Uses(fs, run.sha) && run.Guarded(fs.journal)
    ensures StepEffect(run, old(fs.state), fs.state, m, m, {}) && StaysPut(run, old(fs.state), fs.state)
    ensures r.Pass? && run.quiet ==> forall p | p in paths :: p in fs.state.executable
    ensures r.Fail? ==> r.error.Io?
    ensures run.quiet && old(fs.Calm()) && (forall p | p in paths :: p in old(fs.state).files) ==> r.Pass?
  {
    hide FileSystem.OnRecord, StepEffect, Keeps, Rewrites, Extends, AddsNothing, Run.Open, Run.Guarded, Run.MayWrite;
    hide StaysPut;
    ghost var start := fs.state;
    StepEffectNone(run, start, m, {});
    StaysItself(run, start);
    for i := 0 to |paths|
      invariant fs.Advances() && run.Uses(fs, run.sha) && run.Guarded(fs.journal)
      invariant StepEffect(run, start, fs.state, m, m, {}) && StaysPut(run, start, fs.state)
      invariant run.quiet ==> forall p | p in paths[..i] :: p in fs.state.executable
    {
      ghost var before := fs.state;
      assert paths[i] in paths;
      EffectIsOpen(run, start, before, m, m, {});
      MayWriteAcross(run, start, before, m, m, {}, paths[i]);
      if run.quiet {
        InScope(run, start, paths[i]);
        StaysThere(run, start, before, paths[i]);
      }
      r := MarkExecutable(fs, paths[i], run, m);
      TwoSteps(run, start, before, fs.state, m);
      if r.Fail? {
        return;
      }
      if run.quiet {
        forall p | p in paths[..i + 1] ensures p in fs.state.executable {
          if p in paths[..i] {
            assert p in paths;
            InScope(run, start, p);
            StaysThere(run, before, fs.state, p);
          }
        }
      }
    }
    r := Pass;
  }

  lemma StaysThere(run: Run, d: Disk, later: Disk, p: Path)
    requires StaysPut(run, d, later) && run.quiet && p in run.Known()
    ensures p in d.files ==> p in later.files
    ensures p in d.executable ==> p in later.executable
  {
  }
}
