/** Rolling back to a snapshot. */
module Restore {
  import opened Wrappers
  import opened Paths
  import opened Records
  import opened Manifest
  import opened Store
  import opened Layout

  datatype RestoreSummary = RestoreSummary(
    id: string,
    restored: seq<Path>,
    alreadyAtPreEdit: seq<Path>,
    deletedOrAbsent: seq<Path>,
    postRestoreActions: seq<RestoreAction>)

  // ----- the effect of a rollback, entry by entry -----

  predicate AtPreEdit(files: map<Path, Contents>, sha: Contents -> Digest, e: SnapshotEntry) {
    e.originalPath in files && sha(files[e.originalPath]) == e.preEdit
  }

  function RestoreOne(
    files: map<Path, Contents>, roots: Roots, sha: Contents -> Digest, id: string, e: SnapshotEntry)
    : map<Path, Contents>
  {
    var backup := roots.BackupPath(id, e.backupPath);
    if !e.originalExisted then files - {e.originalPath}
    else if AtPreEdit(files, sha, e) || backup !in files then files
    else files[e.originalPath := files[backup]]
  }

  /** The files after the given entries have been rolled back in order. */
  function Restored(
    files: map<Path, Contents>, roots: Roots, sha: Contents -> Digest, id: string, entries: seq<SnapshotEntry>)
    : map<Path, Contents>
  {
    if entries == [] then files
    else RestoreOne(Restored(files, roots, sha, id, entries[..|entries| - 1]), roots, sha, id, entries[|entries| - 1])
  }

  /** The list an entry goes to, decided by the files as the loop finds them. */
  function Tally(
    s: RestoreSummary, files: map<Path, Contents>, sha: Contents -> Digest, e: SnapshotEntry): RestoreSummary
  {
    if !e.originalExisted then s.(deletedOrAbsent := s.deletedOrAbsent + [e.originalPath])
    else if AtPreEdit(files, sha, e) then s.(alreadyAtPreEdit := s.alreadyAtPreEdit + [e.originalPath])
    else s.(restored := s.restored + [e.originalPath])
  }

  /** What the rollback of `entries` reports: each entry lands in the list its treatment earns it. */
  function SummaryOf(
    files: map<Path, Contents>, roots: Roots, sha: Contents -> Digest, id: string,
    entries: seq<SnapshotEntry>, actions: seq<RestoreAction>): RestoreSummary
  {
    if entries == [] then RestoreSummary(id, [], [], [], actions)
    else
      var front, e := entries[..|entries| - 1], entries[|entries| - 1];
      Tally(SummaryOf(files, roots, sha, id, front, actions), Restored(files, roots, sha, id, front), sha, e)
  }

  /** The paths, in order, of the entries that satisfy a condition. */
  function PathsWhere(entries: seq<SnapshotEntry>, keep: SnapshotEntry -> bool): seq<Path> {
    if entries == [] then []
    else
      var n := |entries| - 1;
      PathsWhere(entries[..n], keep) + (if keep(entries[n]) then [entries[n].originalPath] else [])
  }

  lemma PathsWhereSame(
    entries: seq<SnapshotEntry>, keep: SnapshotEntry -> bool, also: SnapshotEntry -> bool)
    requires forall e | e in entries :: keep(e) == also(e)
    ensures PathsWhere(entries, keep) == PathsWhere(entries, also)
  {
    if entries != [] {
      PathsWhereSame(entries[..|entries| - 1], keep, also);
    }
  }

  // ----- success, and what every run guarantees -----

  ghost predicate BackupVerified(d: Disk, roots: Roots, sha: Contents -> Digest, id: string, e: SnapshotEntry) {
    var b := roots.BackupPath(id, e.backupPath);
    b in d.files && sha(d.files[b]) == e.preEdit
  }

  /** The path is a file, or free and not about to become a directory. */
  ghost predicate Clear(d: Disk, entries: seq<SnapshotEntry>) {
    forall i | 0 <= i < |entries| ::
      var p := entries[i].originalPath;
      p in d.files || (p !in d.dirs && forall j | 0 <= j < |entries| :: !(p < entries[j].originalPath))
  }

  /** A path is settled for an entry once it holds verified bytes, or is gone if it did not exist. */
  predicate Settled(files: map<Path, Contents>, sha: Contents -> Digest, e: SnapshotEntry) {
    if e.originalExisted then AtPreEdit(files, sha, e) else e.originalPath !in files
  }

  /** Every changed path is one of the entries', and holds bytes with that entry's digest or is gone. */
  ghost predicate OnlyVerified(
    files: map<Path, Contents>, later: map<Path, Contents>, sha: Contents -> Digest, entries: seq<SnapshotEntry>)
  {
    forall p {:trigger p in later} |
        (p in files) != (p in later) || (p in files && later[p] != files[p]) ::
      exists i :: 0 <= i < |entries| && entries[i].originalPath == p && Settled(later, sha, entries[i])
  }

  lemma OnlyVerifiedStep(
    files: map<Path, Contents>, mid: map<Path, Contents>, later: map<Path, Contents>,
    sha: Contents -> Digest, entries: seq<SnapshotEntry>, e: SnapshotEntry)
    requires OnlyVerified(files, mid, sha, entries)
    requires later - {e.originalPath} == mid - {e.originalPath}
    requires Settled(later, sha, e) || later == mid
    ensures OnlyVerified(files, later, sha, entries + [e])
  {
    var all := entries + [e];
    forall p {:trigger p in later} | (p in files) != (p in later) || (p in files && later[p] != files[p])
      ensures exists i :: 0 <= i < |all| && all[i].originalPath == p && Settled(later, sha, all[i])
    {
      if p == e.originalPath && Settled(later, sha, e) {
        assert all[|entries|] == e;
      } else {
        assert later != mid ==> p != e.originalPath;
        if later != mid {
          assert (p in later <==> p in later - {e.originalPath}) && (p in mid <==> p in mid - {e.originalPath});
          assert p in later ==> later[p] == (later - {e.originalPath})[p] == (mid - {e.originalPath})[p] == mid[p];
        }
        var i :| 0 <= i < |entries| && entries[i].originalPath == p && Settled(mid, sha, entries[i]);
        assert all[i] == entries[i];
      }
    }
  }

  lemma RestoreOneTouches(
    files: map<Path, Contents>, roots: Roots, sha: Contents -> Digest, id: string, e: SnapshotEntry)
    ensures var later := RestoreOne(files, roots, sha, id, e);
      later - {e.originalPath} == files - {e.originalPath}
  {
  }

  // ----- one entry, whatever others do -----

  /** The operation changes nothing, or settles the entry: with the bytes of its backup, or by removal. */
  ghost predicate Restoring(roots: Roots, sha: Contents -> Digest, id: string, e: SnapshotEntry, ev: Event) {
    ev.path.Some? ==>
      && ev.path.value == e.originalPath && Settled(ev.after.files, sha, e)
      && (e.originalExisted ==>
            BackupVerified(ev.before, roots, sha, id, e)
            && ev.after.files[e.originalPath] == ev.before.files[roots.BackupPath(id, e.backupPath)])
  }

  /** At one of the operations from `n` on the entry was settled. */
  ghost predicate SettledAt(journal: seq<Event>, n: nat, sha: Contents -> Digest, e: SnapshotEntry) {
    exists k :: n <= k < |journal| && Settled(journal[k].after.files, sha, e)
  }

  ghost predicate AllRestoring(
    roots: Roots, sha: Contents -> Digest, id: string, e: SnapshotEntry, journal: seq<Event>, n: nat)
  {
    forall k | n <= k < |journal| :: Restoring(roots, sha, id, e, journal[k])
  }

  // ----- what a rollback reports -----

  /** A round files its entry in one list, by whether there was a file at capture and whether it wrote one now. */
  ghost predicate Filed(e: SnapshotEntry, s: RestoreSummary, later: RestoreSummary, wrote: bool) {
    && later.id == s.id && later.postRestoreActions == s.postRestoreActions
    && later.deletedOrAbsent == s.deletedOrAbsent + (if e.originalExisted then [] else [e.originalPath])
    && later.restored == s.restored + (if e.originalExisted && wrote then [e.originalPath] else [])
    && later.alreadyAtPreEdit == s.alreadyAtPreEdit + (if e.originalExisted && !wrote then [e.originalPath] else [])
  }

  /**
   * The report for the first `done` entries of manifest `m`: the manifest's rollback actions in full,
   * and the entries in manifest order, those that did not exist at capture in one list, and of the
   * others those whose file has been written since operation `n` apart from those whose file has not.
   */
  ghost predicate Reported(
    s: RestoreSummary, id: string, m: SnapshotManifest, done: nat, journal: seq<Event>, n: nat)
  {
    && done <= |m.entries|
    && s.id == id && s.postRestoreActions == m.restoreActions
    && s.deletedOrAbsent == PathsWhere(m.entries[..done], (e: SnapshotEntry) => !e.originalExisted)
    && |s.restored| + |s.alreadyAtPreEdit| + |s.deletedOrAbsent| == done
    && (DistinctPaths(m.entries) ==>
          && s.restored == PathsWhere(
               m.entries[..done], (e: SnapshotEntry) => e.originalExisted && Logged(journal, n, e.originalPath))
          && s.alreadyAtPreEdit == PathsWhere(
               m.entries[..done], (e: SnapshotEntry) => e.originalExisted && !Logged(journal, n, e.originalPath)))
  }

  /** All that has been written is at paths of the first `done` entries. */
  ghost predicate WroteOnly(entries: seq<SnapshotEntry>, done: nat, journal: seq<Event>, n: nat) {
    done <= |entries| && forall k | n <= k < |journal| && journal[k].path.Some? ::
      exists i :: 0 <= i < done && journal[k].path == Some(entries[i].originalPath)
  }

  lemma WroteMore(
    entries: seq<SnapshotEntry>, i: nat, roots: Roots, sha: Contents -> Digest, id: string, before: seq<Event>,
    journal: seq<Event>, n: nat)
    requires i < |entries| && n <= |before| && before <= journal && WroteOnly(entries, i, before, n)
    requires AllRestoring(roots, sha, id, entries[i], journal, |before|)
    ensures WroteOnly(entries, i + 1, journal, n)
  {
    hide Settled, BackupVerified;
    forall k | n <= k < |journal| && journal[k].path.Some?
      ensures exists j :: 0 <= j < i + 1 && journal[k].path == Some(entries[j].originalPath)
    {
      if k < |before| {
        assert journal[k] == before[k];
        var j :| 0 <= j < i && before[k].path == Some(entries[j].originalPath);
        assert j < i + 1;
      } else {
        assert Restoring(roots, sha, id, entries[i], journal[k]);
      }
    }
  }

  /** What earlier rounds wrote, and whether this one did, can be told apart by the paths. */
  lemma LoggedMore(
    entries: seq<SnapshotEntry>, i: nat, roots: Roots, sha: Contents -> Digest, id: string, before: seq<Event>,
    journal: seq<Event>, n: nat)
    requires i < |entries| && n <= |before| && before <= journal && WroteOnly(entries, i, before, n)
    requires AllRestoring(roots, sha, id, entries[i], journal, |before|) && DistinctPaths(entries)
    ensures forall j | 0 <= j < i ::
      Logged(journal, n, entries[j].originalPath) <==> Logged(before, n, entries[j].originalPath)
    ensures Logged(journal, n, entries[i].originalPath) <==> Logged(journal, |before|, entries[i].originalPath)
  {
    hide Settled, BackupVerified;
    forall k | |before| <= k < |journal| && journal[k].path.Some?
      ensures journal[k].path == Some(entries[i].originalPath)
    {
      assert Restoring(roots, sha, id, entries[i], journal[k]);
    }
    assert forall k | n <= k < |before| :: before[k].path != Some(entries[i].originalPath);
    assert forall k | n <= k < |before| :: journal[k] == before[k];
    forall j | 0 <= j < i
      ensures Logged(journal, n, entries[j].originalPath) <==> Logged(before, n, entries[j].originalPath)
    {
      if Logged(journal, n, entries[j].originalPath) {
        var k :| n <= k < |journal| && journal[k].path == Some(entries[j].originalPath);
        assert k < |before| && before[k] == journal[k];
      }
      if Logged(before, n, entries[j].originalPath) {
        var k :| n <= k < |before| && before[k].path == Some(entries[j].originalPath);
        assert journal[k] == before[k];
      }
    }
    if Logged(journal, n, entries[i].originalPath) {
      var k :| n <= k < |journal| && journal[k].path == Some(entries[i].originalPath);
      assert k >= |before|;
    }
  }

  /** One more entry in the report. */
  lemma ReportMore(
    s: RestoreSummary, later: RestoreSummary, m: SnapshotManifest, i: nat, roots: Roots, sha: Contents -> Digest,
    id: string, before: seq<Event>, journal: seq<Event>, n: nat)
    requires i < |m.entries| && n <= |before| && before <= journal && WroteOnly(m.entries, i, before, n)
    requires AllRestoring(roots, sha, id, m.entries[i], journal, |before|)
    requires Reported(s, id, m, i, before, n)
    requires Filed(m.entries[i], s, later, Logged(journal, |before|, m.entries[i].originalPath))
    ensures Reported(later, id, m, i + 1, journal, n)
  {
    hide AllRestoring, WroteOnly, Logged;
    var front, all, e := m.entries[..i], m.entries[..i + 1], m.entries[i];
    assert all[..|all| - 1] == front && all[|all| - 1] == e;
    if DistinctPaths(m.entries) {
      LoggedMore(m.entries, i, roots, sha, id, before, journal, n);
      PathsWhereSame(
        front, (e: SnapshotEntry) => e.originalExisted && Logged(before, n, e.originalPath),
        (e: SnapshotEntry) => e.originalExisted && Logged(journal, n, e.originalPath));
      PathsWhereSame(
        front, (e: SnapshotEntry) => e.originalExisted && !Logged(before, n, e.originalPath),
        (e: SnapshotEntry) => e.originalExisted && !Logged(journal, n, e.originalPath));
    }
  }

  lemma NothingReported(id: string, m: SnapshotManifest, journal: seq<Event>)
    ensures Reported(RestoreSummary(id, [], [], [], m.restoreActions), id, m, 0, journal, |journal|)
    ensures WroteOnly(m.entries, 0, journal, |journal|)
  {
  }

  /** Reading the manifest first wrote nothing. */
  lemma ReportSooner(s: RestoreSummary, id: string, m: SnapshotManifest, journal: seq<Event>, sooner: nat, n: nat)
    requires sooner <= n <= |journal| && forall k | sooner <= k < n :: journal[k].path.None?
    requires Reported(s, id, m, |m.entries|, journal, n)
    ensures Reported(s, id, m, |m.entries|, journal, sooner)
  {
    forall p ensures Logged(journal, sooner, p) <==> Logged(journal, n, p) {
      if Logged(journal, sooner, p) {
        var k :| sooner <= k < |journal| && journal[k].path == Some(p);
        assert k >= n;
      }
    }
    PathsWhereSame(
      m.entries[..|m.entries|], (e: SnapshotEntry) => e.originalExisted && Logged(journal, n, e.originalPath),
      (e: SnapshotEntry) => e.originalExisted && Logged(journal, sooner, e.originalPath));
    PathsWhereSame(
      m.entries[..|m.entries|], (e: SnapshotEntry) => e.originalExisted && !Logged(journal, n, e.originalPath),
      (e: SnapshotEntry) => e.originalExisted && !Logged(journal, sooner, e.originalPath));
  }

  // ----- one round -----

  /** What one round does where others do nothing. */
  ghost predicate RestoredEntry(
    roots: Roots, sha: Contents -> Digest, id: string, e: SnapshotEntry, d: Disk, later: Disk,
    summary: RestoreSummary, r: Result<RestoreSummary, Error>)
  {
    && (r.Success? ==> later.files == RestoreOne(d.files, roots, sha, id, e))
    && (r.Success? ==> later.files == d.files || Settled(later.files, sha, e))
    && (r.Success? ==> r.value == Tally(summary, d.files, sha, e))
    && (r.Failure? ==> later.files == d.files)
    && d.dirs <= later.dirs
    && forall p | p in later.dirs && p !in d.dirs :: e.originalExisted && p < e.originalPath
  }

  lemma BackupIsOwn(roots: Roots, id: string, e: SnapshotEntry)
    ensures roots.Protected(roots.BackupPath(id, e.backupPath))
  {
    assert Under(roots.snapshots, roots.BackupPath(id, e.backupPath));
  }

  lemma OthersKeepOwn(roots: Roots, d: Disk, found: Disk)
    requires SameOwn(roots, d, found)
    ensures OwnFiles(roots, d, found)
  {
  }

  lemma VerifiedAcross(roots: Roots, sha: Contents -> Digest, id: string, e: SnapshotEntry, d: Disk, later: Disk)
    requires OwnFiles(roots, d, later)
    ensures BackupVerified(d, roots, sha, id, e) <==> BackupVerified(later, roots, sha, id, e)
    ensures Same(d, later, roots.BackupPath(id, e.backupPath))
  {
    BackupIsOwn(roots, id, e);
  }

  lemma RestoringSnoc(
    roots: Roots, sha: Contents -> Digest, id: string, e: SnapshotEntry, journal: seq<Event>, n: nat, ev: Event)
    requires n <= |journal| && AllRestoring(roots, sha, id, e, journal, n) && Restoring(roots, sha, id, e, ev)
    ensures AllRestoring(roots, sha, id, e, journal + [ev], n)
  {
  }

  /** Makes the directory of an entry's file. */
  method MakeParent(fs: FileSystem, path: Path) returns (r: Outcome<Error>)
    modifies fs
    ensures fs.Advances() && OwnFiles(fs.reserved, old(fs.state), fs.state)
    ensures forall k | |old(fs.journal)| <= k < |fs.journal| :: fs.journal[k].path.None?
    ensures old(fs.Idle()) ==>
      && fs.Idle() && fs.state.files == old(fs.state).files && old(fs.state).dirs <= fs.state.dirs
      && (forall p | p in fs.state.dirs && p !in old(fs.state).dirs :: p < path)
      && (r.Pass? ==> HasParent(fs.state, path))
    ensures r.Fail? ==> r.error.Io?
    ensures old(fs.Calm()) ==> r.Pass?
  {
    hide FileSystem.OnRecord, Merged;
    if path == [] {
      return Pass;
    }
    ghost var start, found := fs.state, fs.Found();
    OthersKeepOwn(fs.reserved, start, found);
    var parent := path[..|path| - 1];
    r := fs.CreateDirAll(parent);
    assert parent[..|parent|] == parent;
    AncestorsAt(parent, |parent|);
    forall p | p in Ancestors(parent) ensures p < path {
      var i :| 0 <= i <= |parent| && p == parent[..i];
      assert parent[..i] == path[..i];
    }
  }

  /** Puts the verified backup of an entry in place. */
  method PutBack(
    fs: FileSystem, roots: Roots, sha: Contents -> Digest, id: string, e: SnapshotEntry)
    returns (r: Outcome<Error>)
    requires roots == fs.reserved && e.originalExisted
    modifies fs
    ensures fs.Advances() && AllRestoring(roots, sha, id, e, fs.journal, |old(fs.journal)|)
    ensures !roots.Protected(e.originalPath) || r.Fail? ==> OwnFiles(roots, old(fs.state), fs.state)
    ensures r.Pass? ==> SettledAt(fs.journal, |old(fs.journal)|, sha, e)
    ensures r.Pass? ==> Logged(fs.journal, |old(fs.journal)|, e.originalPath)
    ensures r.Fail? && r.error.HashMismatch? ==> !BackupVerified(old(fs.state), roots, sha, id, e)
    ensures old(fs.Idle()) ==>
      && fs.Idle() && old(fs.state).dirs <= fs.state.dirs
      && (forall p | p in fs.state.dirs && p !in old(fs.state).dirs :: p < e.originalPath)
      && (r.Fail? ==> fs.state.files == old(fs.state).files)
      && (r.Pass? ==>
            && BackupVerified(old(fs.state), roots, sha, id, e)
            && fs.state.files == old(fs.state).files[
                 e.originalPath := old(fs.state).files[roots.BackupPath(id, e.backupPath)]])
      && (old(fs.Calm()) && BackupVerified(old(fs.state), roots, sha, id, e) ==> r.Pass?)
  {
    hide FileSystem.OnRecord, Merged, SameOwn, OwnFiles, AllRestoring, Same;
    var path := e.originalPath;
    var backupAbsolute := roots.SnapshotDir(id) + e.backupPath;
    ghost var start, journal, first := fs.state, fs.journal, fs.Found();
    OthersKeepOwn(roots, start, first);
    VerifiedAcross(roots, sha, id, e, start, first);
    NothingRestored(roots, sha, id, e, journal);
    var backup := fs.Read(backupAbsolute);
    RestoringSnoc(roots, sha, id, e, journal, |journal|, Event(first, first, None));
    if backup.Failure? {
      return Fail(backup.error);
    }
    if sha(backup.value) != e.preEdit {
      return Fail(HashMismatch(backupAbsolute, e.preEdit, sha(backup.value)));
    }
    ghost var read := fs.journal;
    r := MakeParent(fs, path);
    ghost var made, before, found := fs.state, fs.journal, fs.Found();
    OwnFilesMore(roots, start, first, made);
    RestoringMore(roots, sha, id, e, read, before, |journal|);
    if r.Fail? {
      return;
    }
    OthersKeepOwn(roots, made, found);
    OwnFilesMore(roots, start, made, found);
    VerifiedAcross(roots, sha, id, e, start, found);
    BackupStays(roots, id, e, first, start, found);
    r := fs.WriteAtomic(path, backup.value);
    ghost var last := Event(found, fs.state, if r.Pass? then Some(path) else None);
    RestoringSnoc(roots, sha, id, e, before, |journal|, last);
    if r.Pass? {
      assert Settled(fs.journal[|before|].after.files, sha, e);
      assert fs.journal[|before|].path == Some(path);
      if !roots.Protected(path) {
        HostWriteOwn(roots, found, fs.state, path);
        OwnFilesMore(roots, start, found, fs.state);
      }
    }
  }

  lemma NothingRestored(
    roots: Roots, sha: Contents -> Digest, id: string, e: SnapshotEntry, journal: seq<Event>)
    ensures AllRestoring(roots, sha, id, e, journal, |journal|)
  {
  }

  lemma RestoringMore(
    roots: Roots, sha: Contents -> Digest, id: string, e: SnapshotEntry, journal: seq<Event>, more: seq<Event>, n: nat)
    requires n <= |journal| && AllRestoring(roots, sha, id, e, journal, n) && journal <= more
    requires forall k | |journal| <= k < |more| :: more[k].path.None?
    ensures AllRestoring(roots, sha, id, e, more, n)
  {
    forall k | n <= k < |more| ensures Restoring(roots, sha, id, e, more[k]) {
      if k < |journal| {
        assert more[k] == journal[k];
      }
    }
  }

  lemma BackupStays(roots: Roots, id: string, e: SnapshotEntry, first: Disk, start: Disk, found: Disk)
    requires OwnFiles(roots, start, first) && OwnFiles(roots, start, found)
    ensures Same(first, found, roots.BackupPath(id, e.backupPath))
    ensures roots.BackupPath(id, e.backupPath) in first.files ==>
      && roots.BackupPath(id, e.backupPath) in found.files
      && found.files[roots.BackupPath(id, e.backupPath)] == first.files[roots.BackupPath(id, e.backupPath)]
  {
    BackupIsOwn(roots, id, e);
    assert Same(start, first, roots.BackupPath(id, e.backupPath));
    assert Same(start, found, roots.BackupPath(id, e.backupPath));
  }

  lemma HostWriteOwn(roots: Roots, d: Disk, later: Disk, p: Path)
    requires !roots.Protected(p) && forall q | q != p :: Same(d, later, q)
    ensures OwnFiles(roots, d, later)
  {
  }

  /** An entry for a file that existed: `true` if it is at the captured content already. */
  method RestoreExisting(
    fs: FileSystem, roots: Roots, sha: Contents -> Digest, id: string, e: SnapshotEntry)
    returns (r: Result<bool, Error>)
    requires roots == fs.reserved && e.originalExisted
    modifies fs
    ensures fs.Advances() && AllRestoring(roots, sha, id, e, fs.journal, |old(fs.journal)|)
    ensures !roots.Protected(e.originalPath) ==> OwnFiles(roots, old(fs.state), fs.state)
    ensures r.Success? ==> SettledAt(fs.journal, |old(fs.journal)|, sha, e)
    ensures r.Success? ==> (r.value <==> !Logged(fs.journal, |old(fs.journal)|, e.originalPath))
    ensures r.Failure? && r.error.HashMismatch? ==> !BackupVerified(old(fs.state), roots, sha, id, e)
    ensures old(fs.Idle()) ==>
      && fs.Idle() && old(fs.state).dirs <= fs.state.dirs
      && (forall p | p in fs.state.dirs && p !in old(fs.state).dirs :: p < e.originalPath)
      && (r.Failure? ==> fs.state.files == old(fs.state).files)
      && (r.Success? ==> fs.state.files == RestoreOne(old(fs.state).files, roots, sha, id, e))
      && (r.Success? ==> (r.value <==> AtPreEdit(old(fs.state).files, sha, e)))
      && (r.Success? ==> Settled(fs.state.files, sha, e))
      && (old(fs.Calm()) && BackupVerified(old(fs.state), roots, sha, id, e)
          && (e.originalPath in old(fs.state).files || e.originalPath !in old(fs.state).dirs)
          ==> r.Success?)
  {
    hide FileSystem.OnRecord, Merged, SameOwn, OwnFiles, AllRestoring, Same, BackupVerified, RestoreOne, SettledAt;
    var path := e.originalPath;
    ghost var start, journal, first := fs.state, fs.journal, fs.Found();
    ghost var second := fs.Others(fs.ops + 1, first);
    OthersKeepOwn(roots, start, first);
    OthersKeepOwn(roots, first, second);
    OwnFilesMore(roots, start, first, second);
    VerifiedAcross(roots, sha, id, e, start, first);
    VerifiedAcross(roots, sha, id, e, start, second);
    NothingRestored(roots, sha, id, e, journal);
    var there := fs.Exists(path);
    ghost var looked := fs.journal;
    RestoringSnoc(roots, sha, id, e, journal, |journal|, Event(first, first, None));
    if there {
      RestoringSnoc(roots, sha, id, e, looked, |journal|, Event(second, second, None));
      var current :- fs.Read(path);
      if sha(current) == e.preEdit {
        SettledHere(fs.journal, |journal|, |looked|, sha, e);
        AtRest(fs.state.files, roots, sha, id, e);
        return Success(true);
      }
    }
    ghost var mid, before := fs.state, fs.journal;
    var put := PutBack(fs, roots, sha, id, e);
    BothRestoring(roots, sha, id, e, before, fs.journal, |journal|);
    if !roots.Protected(path) || put.Fail? {
      OwnFilesMore(roots, start, mid, fs.state);
    }
    if put.Fail? {
      return Failure(put.error);
    }
    SettledSooner(fs.journal, |before|, |journal|, sha, e);
    LoggedSince(fs.journal, |before|, |journal|, path);
    PutIsRestored(mid, roots, sha, id, e);
    return Success(false);
  }

  lemma LoggedSince(journal: seq<Event>, n: nat, sooner: nat, p: Path)
    requires sooner <= n && Logged(journal, n, p)
    ensures Logged(journal, sooner, p)
  {
  }

  lemma SettledHere(journal: seq<Event>, n: nat, k: nat, sha: Contents -> Digest, e: SnapshotEntry)
    requires n <= k < |journal| && Settled(journal[k].after.files, sha, e)
    ensures SettledAt(journal, n, sha, e)
  {
  }

  lemma AtRest(files: map<Path, Contents>, roots: Roots, sha: Contents -> Digest, id: string, e: SnapshotEntry)
    requires e.originalExisted && AtPreEdit(files, sha, e)
    ensures RestoreOne(files, roots, sha, id, e) == files
  {
  }

  lemma PutIsRestored(d: Disk, roots: Roots, sha: Contents -> Digest, id: string, e: SnapshotEntry)
    requires e.originalExisted && !AtPreEdit(d.files, sha, e)
    ensures BackupVerified(d, roots, sha, id, e) ==>
      && roots.BackupPath(id, e.backupPath) in d.files
      && sha(d.files[roots.BackupPath(id, e.backupPath)]) == e.preEdit
      && RestoreOne(d.files, roots, sha, id, e)
         == d.files[e.originalPath := d.files[roots.BackupPath(id, e.backupPath)]]
  {
  }

  /** An entry for a file that did not exist: whatever is there now is removed. */
  method RemoveEntry(fs: FileSystem, roots: Roots, sha: Contents -> Digest, id: string, e: SnapshotEntry)
    returns (r: Outcome<Error>)
    requires roots == fs.reserved && !e.originalExisted
    modifies fs
    ensures fs.Advances() && AllRestoring(roots, sha, id, e, fs.journal, |old(fs.journal)|)
    ensures !roots.Protected(e.originalPath) ==> OwnFiles(roots, old(fs.state), fs.state)
    ensures r.Pass? ==> SettledAt(fs.journal, |old(fs.journal)|, sha, e)
    ensures r.Fail? ==> r.error.Io?
    ensures old(fs.Idle()) ==>
      && fs.Idle() && fs.state.dirs == old(fs.state).dirs
      && (r.Fail? ==> fs.state.files == old(fs.state).files)
      && (r.Pass? ==> fs.state.files == old(fs.state).files - {e.originalPath})
      && (old(fs.Calm()) && (e.originalPath in old(fs.state).files || e.originalPath !in old(fs.state).dirs)
          ==> r.Pass?)
  {
    hide FileSystem.OnRecord, Merged, SameOwn, OwnFiles, AllRestoring, Same;
    var path := e.originalPath;
    ghost var start, journal, first := fs.state, fs.journal, fs.Found();
    ghost var second := fs.Others(fs.ops + 1, first);
    OthersKeepOwn(roots, start, first);
    OthersKeepOwn(roots, first, second);
    OwnFilesMore(roots, start, first, second);
    NothingRestored(roots, sha, id, e, journal);
    var there := fs.Exists(path);
    ghost var looked := fs.journal;
    RestoringSnoc(roots, sha, id, e, journal, |journal|, Event(first, first, None));
    if !there {
      assert Settled(looked[|journal|].after.files, sha, e);
      return Pass;
    }
    r := fs.RemoveFile(path);
    ghost var last := Event(second, fs.state, if r.Pass? then Some(path) else None);
    RestoringSnoc(roots, sha, id, e, looked, |journal|, last);
    if r.Pass? {
      assert Settled(fs.journal[|looked|].after.files, sha, e);
      if !roots.Protected(path) {
        RemovalOwn(roots, second, fs.state, path);
        OwnFilesMore(roots, start, second, fs.state);
      }
    }
  }

  /** One round of the rollback loop. */
  method RestoreEntry(
    fs: FileSystem, roots: Roots, sha: Contents -> Digest, id: string, e: SnapshotEntry, summary: RestoreSummary)
    returns (r: Result<RestoreSummary, Error>)
    requires roots == fs.reserved
    modifies fs
    ensures fs.Advances() && AllRestoring(roots, sha, id, e, fs.journal, |old(fs.journal)|)
    ensures !roots.Protected(e.originalPath) ==> OwnFiles(roots, old(fs.state), fs.state)
    ensures r.Success? ==> SettledAt(fs.journal, |old(fs.journal)|, sha, e)
    ensures r.Success? ==>
      Filed(e, summary, r.value, Logged(fs.journal, |old(fs.journal)|, e.originalPath))
    ensures r.Failure? && r.error.HashMismatch? ==> !BackupVerified(old(fs.state), roots, sha, id, e)
    ensures old(fs.Idle()) ==>
      && fs.Idle() && RestoredEntry(roots, sha, id, e, old(fs.state), fs.state, summary, r)
      && (old(fs.Calm())
          && (e.originalPath in old(fs.state).files || e.originalPath !in old(fs.state).dirs)
          && (e.originalExisted ==> BackupVerified(old(fs.state), roots, sha, id, e))
          ==> r.Success?)
  {
    hide FileSystem.OnRecord, OwnFiles, AllRestoring, SettledAt, AtPreEdit, BackupVerified;
    var path := e.originalPath;
    if e.originalExisted {
      var already := RestoreExisting(fs, roots, sha, id, e);
      if already.Failure? {
        return Failure(already.error);
      }
      if already.value {
        return Success(summary.(alreadyAtPreEdit := summary.alreadyAtPreEdit + [path]));
      }
      return Success(summary.(restored := summary.restored + [path]));
    } else {
      var removed := RemoveEntry(fs, roots, sha, id, e);
      if removed.Fail? {
        return Failure(removed.error);
      }
      return Success(summary.(deletedOrAbsent := summary.deletedOrAbsent + [path]));
    }
  }

  lemma RemovalOwn(roots: Roots, d: Disk, later: Disk, p: Path)
    requires !roots.Protected(p) && later.files == d.files - {p}
    ensures OwnFiles(roots, d, later)
  {
  }

  lemma BothRestoring(
    roots: Roots, sha: Contents -> Digest, id: string, e: SnapshotEntry, journal: seq<Event>, more: seq<Event>, n: nat)
    requires n <= |journal| && AllRestoring(roots, sha, id, e, journal, n) && journal <= more
    requires AllRestoring(roots, sha, id, e, more, |journal|)
    ensures AllRestoring(roots, sha, id, e, more, n)
  {
    forall k | n <= k < |more| ensures Restoring(roots, sha, id, e, more[k]) {
      if k < |journal| {
        assert more[k] == journal[k];
      }
    }
  }

  lemma SettledSooner(journal: seq<Event>, n: nat, sooner: nat, sha: Contents -> Digest, e: SnapshotEntry)
    requires SettledAt(journal, n, sha, e) && sooner <= n
    ensures SettledAt(journal, sooner, sha, e)
  {
  }

  // ----- the loop -----

  /** How far a rollback of `entries` got, and what it has done to the files by then, where others do nothing. */
  ghost predicate RolledBack(
    base: Disk, d: Disk, roots: Roots, sha: Contents -> Digest, id: string, entries: seq<SnapshotEntry>, done: nat)
  {
    && done <= |entries|
    && d.files == Restored(base.files, roots, sha, id, entries[..done])
    && OnlyVerified(base.files, d.files, sha, entries[..done])
  }

  ghost predicate CanRollBack(d: Disk, roots: Roots, sha: Contents -> Digest, id: string, entries: seq<SnapshotEntry>) {
    AllRestorable(d, roots, sha, id, entries) && Clear(d, entries)
  }

  /** Every operation from `n` on changes nothing or settles one of the entries. */
  ghost predicate RestoringSince(
    roots: Roots, sha: Contents -> Digest, id: string, entries: seq<SnapshotEntry>, journal: seq<Event>, n: nat)
  {
    forall k | n <= k < |journal| && journal[k].path.Some? ::
      exists i :: 0 <= i < |entries| && Restoring(roots, sha, id, entries[i], journal[k])
  }

  /** The first `done` entries have each been settled at some operation. */
  ghost predicate SettledSoFar(
    sha: Contents -> Digest, entries: seq<SnapshotEntry>, done: nat, journal: seq<Event>, n: nat)
  {
    done <= |entries| && forall i | 0 <= i < done :: SettledAt(journal, n, sha, entries[i])
  }

  lemma SinceMore(
    roots: Roots, sha: Contents -> Digest, id: string, entries: seq<SnapshotEntry>, i: nat, journal: seq<Event>,
    more: seq<Event>, n: nat)
    requires i < |entries| && n <= |journal| && journal <= more
    requires RestoringSince(roots, sha, id, entries, journal, n)
    requires AllRestoring(roots, sha, id, entries[i], more, |journal|)
    ensures RestoringSince(roots, sha, id, entries, more, n)
  {
    hide Restoring;
    forall k | n <= k < |more| && more[k].path.Some?
      ensures exists j :: 0 <= j < |entries| && Restoring(roots, sha, id, entries[j], more[k])
    {
      if k < |journal| {
        assert more[k] == journal[k];
      } else {
        assert Restoring(roots, sha, id, entries[i], more[k]);
      }
    }
  }

  lemma SettledMore(
    sha: Contents -> Digest, entries: seq<SnapshotEntry>, i: nat, journal: seq<Event>, more: seq<Event>, n: nat)
    requires i < |entries| && n <= |journal| && journal <= more && SettledSoFar(sha, entries, i, journal, n)
    requires SettledAt(more, |journal|, sha, entries[i])
    ensures SettledSoFar(sha, entries, i + 1, more, n)
  {
    hide Settled;
    forall j | 0 <= j < i + 1 ensures SettledAt(more, n, sha, entries[j]) {
      if j < i {
        SettledLater(journal, more, n, sha, entries[j]);
      } else {
        SettledSooner(more, |journal|, n, sha, entries[i]);
      }
    }
  }

  /** One more entry, where others do nothing. */
  lemma RolledBackMore(
    base: Disk, mid: Disk, d: Disk, roots: Roots, sha: Contents -> Digest, id: string,
    entries: seq<SnapshotEntry>, i: nat, summary: RestoreSummary, actions: seq<RestoreAction>,
    r: Result<RestoreSummary, Error>)
    requires i < |entries| && RolledBack(base, mid, roots, sha, id, entries, i)
    requires summary == SummaryOf(base.files, roots, sha, id, entries[..i], actions)
    requires RestoredEntry(roots, sha, id, entries[i], mid, d, summary, r) && DirsStayClear(base, mid, entries)
    ensures DirsStayClear(base, d, entries)
    ensures r.Success? ==>
      && RolledBack(base, d, roots, sha, id, entries, i + 1)
      && r.value == SummaryOf(base.files, roots, sha, id, entries[..i + 1], actions)
    ensures r.Failure? ==> RolledBack(base, d, roots, sha, id, entries, i)
  {
    hide RestoreOne, Settled;
    var e := entries[i];
    assert entries[..i + 1][..i] == entries[..i] && entries[..i + 1] == entries[..i] + [e];
    if r.Success? {
      RestoreOneTouches(mid.files, roots, sha, id, e);
      OnlyVerifiedStep(base.files, mid.files, d.files, sha, entries[..i], e);
    }
  }

  ghost predicate HostEntries(roots: Roots, entries: seq<SnapshotEntry>) {
    forall i | 0 <= i < |entries| :: !roots.Protected(entries[i].originalPath)
  }

  /** The rollback loop; `done` counts the entries that were completed. */
  method RestoreEntries(fs: FileSystem, roots: Roots, sha: Contents -> Digest, id: string, manifest: SnapshotManifest)
    returns (r: Result<RestoreSummary, Error>, ghost done: nat)
    requires roots == fs.reserved
    modifies fs
    ensures fs.Advances() && done <= |manifest.entries|
    ensures RestoringSince(roots, sha, id, manifest.entries, fs.journal, |old(fs.journal)|)
    ensures SettledSoFar(sha, manifest.entries, done, fs.journal, |old(fs.journal)|)
    ensures r.Success? ==> done == |manifest.entries|
    ensures r.Success? ==>
      Reported(r.value, id, manifest, |manifest.entries|, fs.journal, |old(fs.journal)|)
    ensures r.Failure? ==> done < |manifest.entries|
    ensures HostEntries(roots, manifest.entries) ==>
      && OwnFiles(roots, old(fs.state), fs.state)
      && (r.Failure? && r.error.HashMismatch? ==>
            !BackupVerified(old(fs.state), roots, sha, id, manifest.entries[done]))
    ensures old(fs.Idle()) ==>
      && fs.Idle() && RolledBack(old(fs.state), fs.state, roots, sha, id, manifest.entries, done)
      && (r.Success? ==>
            r.value == SummaryOf(
              old(fs.state).files, roots, sha, id, manifest.entries, manifest.restoreActions))
      && (old(fs.Calm()) && CanRollBack(old(fs.state), roots, sha, id, manifest.entries) ==> r.Success?)
  {
    hide FileSystem.OnRecord, RestoreOne, Settled, AllRestorable, Clear, Sanitize, RestoringSince, SettledSoFar;
    hide OwnFiles, AllRestoring;
    hide RolledBack, RestoredEntry, SummaryOf, BackupVerified, DirsStayClear, HostEntries, FileSystem.Idle, SettledAt;
    hide Reported, WroteOnly, Logged, Filed;
    ghost var base, journal, entries := fs.state, fs.journal, manifest.entries;
    ghost var idle := fs.Idle();
    ghost var calm := idle && fs.Calm() && CanRollBack(base, roots, sha, id, entries);
    var summary := RestoreSummary(id, [], [], [], manifest.restoreActions);
    done := 0;
    NothingRolledBack(base, roots, sha, id, entries, manifest.restoreActions, journal);
    NothingReported(id, manifest, journal);
    for i := 0 to |manifest.entries|
      invariant done == i && fs.Advances()
      invariant RestoringSince(roots, sha, id, entries, fs.journal, |journal|)
      invariant SettledSoFar(sha, entries, i, fs.journal, |journal|)
      invariant WroteOnly(entries, i, fs.journal, |journal|)
      invariant Reported(summary, id, manifest, i, fs.journal, |journal|)
      invariant HostEntries(roots, entries) ==> OwnFiles(roots, base, fs.state)
      invariant idle ==>
        && fs.Idle() && RolledBack(base, fs.state, roots, sha, id, entries, i)
        && summary == SummaryOf(base.files, roots, sha, id, entries[..i], manifest.restoreActions)
        && DirsStayClear(base, fs.state, entries)
    {
      var e := manifest.entries[i];
      ghost var mid, before, sum := fs.state, fs.journal, summary;
      if calm {
        RestoreCanProceed(base, mid, roots, sha, id, entries, i);
      }
      var next := RestoreEntry(fs, roots, sha, id, e, summary);
      SinceMore(roots, sha, id, entries, i, before, fs.journal, |journal|);
      if HostEntries(roots, entries) {
        HostEntryAt(roots, entries, i);
        VerifiedAcross(roots, sha, id, e, base, mid);
        OwnFilesMore(roots, base, mid, fs.state);
      }
      if idle {
        RolledBackMore(
          base, mid, fs.state, roots, sha, id, entries, i, sum, manifest.restoreActions, next);
      }
      if next.Failure? {
        SettledLonger(sha, entries, i, before, fs.journal, |journal|);
        return Failure(next.error), i;
      }
      SettledMore(sha, entries, i, before, fs.journal, |journal|);
      ReportMore(sum, next.value, manifest, i, roots, sha, id, before, fs.journal, |journal|);
      WroteMore(entries, i, roots, sha, id, before, fs.journal, |journal|);
      summary := next.value;
      done := i + 1;
    }
    assert manifest.entries[..|manifest.entries|] == manifest.entries;
    return Success(summary), done;
  }

  lemma HostEntryAt(roots: Roots, entries: seq<SnapshotEntry>, i: nat)
    requires HostEntries(roots, entries) && i < |entries|
    ensures !roots.Protected(entries[i].originalPath)
  {
  }

  lemma SettledLonger(
    sha: Contents -> Digest, entries: seq<SnapshotEntry>, done: nat, journal: seq<Event>, more: seq<Event>, n: nat)
    requires SettledSoFar(sha, entries, done, journal, n) && journal <= more
    ensures SettledSoFar(sha, entries, done, more, n)
  {
    hide Settled;
    forall i | 0 <= i < done ensures SettledAt(more, n, sha, entries[i]) {
      SettledLater(journal, more, n, sha, entries[i]);
    }
  }

  lemma SettledLater(journal: seq<Event>, more: seq<Event>, n: nat, sha: Contents -> Digest, e: SnapshotEntry)
    requires SettledAt(journal, n, sha, e) && journal <= more
    ensures SettledAt(more, n, sha, e)
  {
    var k :| n <= k < |journal| && Settled(journal[k].after.files, sha, e);
    assert more[k] == journal[k];
  }

  lemma NothingRolledBack(
    base: Disk, roots: Roots, sha: Contents -> Digest, id: string, entries: seq<SnapshotEntry>,
    actions: seq<RestoreAction>, journal: seq<Event>)
    ensures RestoringSince(roots, sha, id, entries, journal, |journal|)
    ensures SettledSoFar(sha, entries, 0, journal, |journal|) && OwnFiles(roots, base, base)
    ensures RolledBack(base, base, roots, sha, id, entries, 0) && DirsStayClear(base, base, entries)
    ensures SummaryOf(base.files, roots, sha, id, entries[..0], actions) == RestoreSummary(id, [], [], [], actions)
  {
  }

  /**
   * Rolls back to snapshot `id`. Whatever others do meanwhile, every change puts verified bytes in
   * place or removes a file that was not there at capture, and after a success every entry has been
   * settled at some point; where others do nothing, the files are exactly those of the fold.
   */
  method Rollback(fs: FileSystem, roots: Roots, sha: Contents -> Digest, id: string)
    returns (r: Result<RestoreSummary, Error>, ghost done: nat)
    requires roots == fs.reserved
    modifies fs
    ensures fs.Advances()
    ensures !old(fs.state).Exists(roots.ManifestPath(id)) ==> r == Failure(MissingManifest(id))
    ensures !HasManifest(old(fs.state), roots, id) ==>
      && r.Failure? && OwnFiles(roots, old(fs.state), fs.state)
      && (old(fs.Idle()) ==> fs.state == old(fs.state))
      && forall k | |old(fs.journal)| <= k < |fs.journal| :: fs.journal[k].path.None?
    ensures HasManifest(old(fs.state), roots, id) ==>
      var m := ManifestOf(old(fs.state), roots, id);
      && RestoringSince(roots, sha, id, m.entries, fs.journal, |old(fs.journal)|)
      && SettledSoFar(sha, m.entries, done, fs.journal, |old(fs.journal)|)
      && (r.Success? ==> done == |m.entries|)
      && (r.Success? ==> Reported(r.value, id, m, |m.entries|, fs.journal, |old(fs.journal)|))
      && (HostEntries(roots, m.entries) ==>
            && OwnFiles(roots, old(fs.state), fs.state)
            && (r.Failure? && r.error.HashMismatch? ==>
                  done < |m.entries| && !BackupVerified(old(fs.state), roots, sha, id, m.entries[done])))
      && (old(fs.Idle()) ==>
            && RolledBack(old(fs.state), fs.state, roots, sha, id, m.entries, done)
            && (r.Success? ==>
                  r.value == SummaryOf(old(fs.state).files, roots, sha, id, m.entries, m.restoreActions))
            && (old(fs.Calm()) && CanRollBack(old(fs.state), roots, sha, id, m.entries) ==> r.Success?))
  {
    hide FileSystem.OnRecord, RestoringSince, SettledSoFar, OwnFiles, RolledBack, SummaryOf, BackupVerified;
    hide HostEntries, CanRollBack, Reported;
    hide Merged, SameOwn, Same;
    done := 0;
    var manifestPath := roots.ManifestPath(id);
    ghost var start, journal, first := fs.state, fs.journal, fs.Found();
    ghost var second := fs.Others(fs.ops + 1, first);
    OthersKeepOwn(roots, start, first);
    OthersKeepOwn(roots, first, second);
    OwnFilesMore(roots, start, first, second);
    ManifestThere(roots, id, start, first);
    ManifestStays(roots, id, start, second);
    if HasManifest(start, roots, id) {
      var m := ManifestOf(start, roots, id);
      StoppedBefore(roots, sha, id, m, start, first, second, journal);
    }
    var there := fs.Exists(manifestPath);
    if !there {
      return Failure(MissingManifest(id)), 0;
    }
    ghost var looked := fs.journal;
    var raw := fs.Read(manifestPath);
    assert fs.journal == journal + [Event(first, first, None), Event(second, second, None)];
    if raw.Failure? {
      return Failure(raw.error), 0;
    }
    if !raw.value.ManifestFile? {
      return Failure(ManifestParse(id)), 0;
    }
    ghost var read := fs.journal;
    r, done := RestoreEntries(fs, roots, sha, id, raw.value.manifest);
    AfterReading(roots, sha, id, raw.value.manifest, start, second, fs.state, journal, read, fs.journal, done);
    if r.Success? {
      ReportSooner(r.value, id, raw.value.manifest, fs.journal, |journal|, |read|);
    }
  }
  lemma ManifestThere(roots: Roots, id: string, start: Disk, found: Disk)
    requires SameOwn(roots, start, found)
    ensures start.Exists(roots.ManifestPath(id)) <==> found.Exists(roots.ManifestPath(id))
  {
    assert Under(roots.snapshots, roots.ManifestPath(id));
    assert roots.Protected(roots.ManifestPath(id));
  }

  lemma ManifestStays(roots: Roots, id: string, start: Disk, found: Disk)
    requires OwnFiles(roots, start, found)
    ensures HasManifest(start, roots, id) <==> HasManifest(found, roots, id)
    ensures HasManifest(start, roots, id) ==> ManifestOf(start, roots, id) == ManifestOf(found, roots, id)
  {
    assert Under(roots.snapshots, roots.ManifestPath(id));
    assert Same(start, found, roots.ManifestPath(id));
  }

  /** A rollback that stops before the loop has restored nothing. */
  lemma StoppedBefore(
    roots: Roots, sha: Contents -> Digest, id: string, m: SnapshotManifest, start: Disk, first: Disk, second: Disk,
    journal: seq<Event>)
    ensures var once := journal + [Event(first, first, None)];
      && RestoringSince(roots, sha, id, m.entries, once, |journal|)
      && SettledSoFar(sha, m.entries, 0, once, |journal|)
    ensures var twice := journal + [Event(first, first, None), Event(second, second, None)];
      && RestoringSince(roots, sha, id, m.entries, twice, |journal|)
      && SettledSoFar(sha, m.entries, 0, twice, |journal|)
    ensures RolledBack(start, start, roots, sha, id, m.entries, 0)
  {
  }

  /** What the loop guarantees, seen from before the manifest was read. */
  lemma AfterReading(
    roots: Roots, sha: Contents -> Digest, id: string, m: SnapshotManifest, start: Disk, second: Disk, d: Disk,
    journal: seq<Event>, read: seq<Event>, more: seq<Event>, done: nat)
    requires journal <= read <= more && OwnFiles(roots, start, second)
    requires forall k | |journal| <= k < |read| :: read[k].path.None?
    requires RestoringSince(roots, sha, id, m.entries, more, |read|)
    requires SettledSoFar(sha, m.entries, done, more, |read|)
    ensures RestoringSince(roots, sha, id, m.entries, more, |journal|)
    ensures SettledSoFar(sha, m.entries, done, more, |journal|)
    ensures OwnFiles(roots, second, d) ==> OwnFiles(roots, start, d)
    ensures done < |m.entries| ==>
      (BackupVerified(start, roots, sha, id, m.entries[done]) <==>
       BackupVerified(second, roots, sha, id, m.entries[done]))
  {
    hide Restoring, Settled, BackupVerified, OwnFiles;
    assert forall k | |journal| <= k < |read| :: more[k] == read[k];
    forall i | 0 <= i < done ensures SettledAt(more, |journal|, sha, m.entries[i]) {
      SettledSooner(more, |read|, |journal|, sha, m.entries[i]);
    }
    if OwnFiles(roots, second, d) {
      OwnFilesMore(roots, start, second, d);
    }
    if done < |m.entries| {
      VerifiedAcross(roots, sha, id, m.entries[done], start, second);
    }
  }

  /** Directories made during a rollback are proper ancestors of entry paths. */
  ghost predicate DirsStayClear(base: Disk, d: Disk, entries: seq<SnapshotEntry>) {
    forall p | p in d.dirs && p !in base.dirs :: exists j :: 0 <= j < |entries| && p < entries[j].originalPath
  }

  // ----- what the fold does to each path -----

  lemma RestoredFrame(
    files: map<Path, Contents>, roots: Roots, sha: Contents -> Digest, id: string, entries: seq<SnapshotEntry>,
    p: Path)
    requires forall i | 0 <= i < |entries| :: entries[i].originalPath != p
    ensures var later := Restored(files, roots, sha, id, entries);
      (p in later <==> p in files) && (p in files ==> later[p] == files[p])
  {
    if entries != [] {
      var front := entries[..|entries| - 1];
      assert forall i | 0 <= i < |front| :: front[i] == entries[i];
      RestoredFrame(files, roots, sha, id, front, p);
    }
  }

  /** Backups of a restorable snapshot are never targets of its own rollback. */
  lemma BackupUntouched(
    d: Disk, roots: Roots, sha: Contents -> Digest, id: string, e: SnapshotEntry, entries: seq<SnapshotEntry>)
    requires EntryRestorable(d, roots, sha, id, e)
    requires forall i | 0 <= i < |entries| :: !roots.Protected(entries[i].originalPath)
    ensures var b := roots.BackupPath(id, e.backupPath);
      var later := Restored(d.files, roots, sha, id, entries);
      (b in later <==> b in d.files) && (b in d.files ==> later[b] == d.files[b])
  {
    BackupIsNoManifest(roots, id, e.originalPath);
    RestoredFrame(d.files, roots, sha, id, entries, roots.BackupPath(id, e.backupPath));
  }

  /** What a rollback leaves at the path of one entry. */
  function EntryResult(
    files: map<Path, Contents>, roots: Roots, sha: Contents -> Digest, id: string, e: SnapshotEntry): Option<Contents>
  {
    var b := roots.BackupPath(id, e.backupPath);
    if !e.originalExisted then None
    else if AtPreEdit(files, sha, e) || b !in files then Get(files, e.originalPath)
    else Some(files[b])
  }

  function Get(files: map<Path, Contents>, p: Path): Option<Contents> {
    if p in files then Some(files[p]) else None
  }

  lemma RestoreOneAt(
    files: map<Path, Contents>, roots: Roots, sha: Contents -> Digest, id: string, e: SnapshotEntry, p: Path)
    ensures Get(RestoreOne(files, roots, sha, id, e), p) ==
      if p == e.originalPath then EntryResult(files, roots, sha, id, e) else Get(files, p)
  {
  }

  lemma {:induction false} RestoredAt(
    d: Disk, roots: Roots, sha: Contents -> Digest, id: string, entries: seq<SnapshotEntry>, k: nat)
    requires AllRestorable(d, roots, sha, id, entries) && k < |entries|
    ensures Get(Restored(d.files, roots, sha, id, entries), entries[k].originalPath)
         == EntryResult(d.files, roots, sha, id, entries[k])
  {
    hide Sanitize, BackupRelative, Roots.BackupPath, Roots.Protected, RestoreOne;
    var n := |entries| - 1;
    var front, last := entries[..n], entries[n];
    var mid := Restored(d.files, roots, sha, id, front);
    RestoreOneAt(mid, roots, sha, id, last, entries[k].originalPath);
    assert forall i | 0 <= i < n :: front[i] == entries[i] && EntryRestorable(d, roots, sha, id, entries[i]);
    if k < n {
      RestoredAt(d, roots, sha, id, front, k);
      assert entries[k].originalPath != last.originalPath;
    } else {
      BackupUntouched(d, roots, sha, id, last, front);
      RestoredFrame(d.files, roots, sha, id, front, last.originalPath);
    }
  }

  lemma RestoreCanProceed(
    base: Disk, mid: Disk, roots: Roots, sha: Contents -> Digest, id: string, entries: seq<SnapshotEntry>, i: nat)
    requires i < |entries| && CanRollBack(base, roots, sha, id, entries)
    requires RolledBack(base, mid, roots, sha, id, entries, i) && DirsStayClear(base, mid, entries)
    ensures entries[i].originalPath in mid.files || entries[i].originalPath !in mid.dirs
    ensures entries[i].originalExisted ==> BackupVerified(mid, roots, sha, id, entries[i])
  {
    assert EntryRestorable(base, roots, sha, id, entries[i]);
    assert forall j | 0 <= j < i :: EntryRestorable(base, roots, sha, id, entries[j]);
    BackupUntouched(base, roots, sha, id, entries[i], entries[..i]);
    RestoredFrame(base.files, roots, sha, id, entries[..i], entries[i].originalPath);
  }

  // ----- the rollback theorems -----

  /** Live and captured content do not collide: if they share a digest they are equal. */
  ghost predicate NoCollision(d: Disk, roots: Roots, sha: Contents -> Digest, id: string, e: SnapshotEntry) {
    var b := roots.BackupPath(id, e.backupPath);
    (e.originalExisted && e.originalPath in d.files && b in d.files
      && sha(d.files[e.originalPath]) == sha(d.files[b]))
    ==> d.files[e.originalPath] == d.files[b]
  }

  /** The path is there on both or on neither, with content of the same digest. */
  ghost predicate SameDigest(files: map<Path, Contents>, later: map<Path, Contents>, sha: Contents -> Digest, p: Path) {
    (p in files <==> p in later) && (p in files ==> sha(later[p]) == sha(files[p]))
  }

  /**
   * A full rollback gives every target the presence and the digest it had at capture, whatever is
   * there now; and the very content, if live and captured content do not collide.
   */
  lemma RollbackRestoresBase(
    d: Disk, roots: Roots, sha: Contents -> Digest, id: string, targets: seq<Path>, seen: map<Path, Contents>, i: nat)
    requires Backs(d, roots, sha, id, targets, seen) && i < |targets|
    ensures var entries := ManifestOf(d, roots, id).entries; var later := Restored(d.files, roots, sha, id, entries);
      && SameDigest(seen, later, sha, targets[i])
      && ((forall e | e in entries :: NoCollision(d, roots, sha, id, e)) ==>
            Get(later, targets[i]) == Get(seen, targets[i]))
  {
    var entries := ManifestOf(d, roots, id).entries;
    RestoredAt(d, roots, sha, id, entries, i);
    assert EntryBacks(d, roots, sha, id, entries[i], seen);
    assert entries[i] in entries;
  }

  /** Rolling back a prefix first, and then everything, is the same as rolling back once. */
  lemma RestoreResumable(
    d: Disk, part: Disk, roots: Roots, sha: Contents -> Digest, id: string, entries: seq<SnapshotEntry>, k: nat)
    requires AllRestorable(d, roots, sha, id, entries) && k <= |entries|
    requires part.files == Restored(d.files, roots, sha, id, entries[..k])
    ensures Restored(part.files, roots, sha, id, entries) == Restored(d.files, roots, sha, id, entries)
  {
    var once, twice := Restored(d.files, roots, sha, id, entries), Restored(part.files, roots, sha, id, entries);
    var front := entries[..k];
    assert AllRestorable(d, roots, sha, id, front);
    forall i | 0 <= i < |entries|
      ensures EntryRestorable(part, roots, sha, id, entries[i])
      ensures Get(once, entries[i].originalPath) == EntryResult(d.files, roots, sha, id, entries[i])
      ensures Get(part.files, entries[i].originalPath) ==
        if i < k then EntryResult(d.files, roots, sha, id, entries[i]) else Get(d.files, entries[i].originalPath)
    {
      BackupUntouched(d, roots, sha, id, entries[i], front);
      RestoredAt(d, roots, sha, id, entries, i);
      if i < k {
        RestoredAt(d, roots, sha, id, front, i);
        assert front[i] == entries[i];
      } else {
        RestoredFrame(d.files, roots, sha, id, front, entries[i].originalPath);
      }
    }
    forall i | 0 <= i < |entries|
      ensures Get(twice, entries[i].originalPath) == Get(once, entries[i].originalPath)
    {
      RestoredAt(part, roots, sha, id, entries, i);
      BackupUntouched(d, roots, sha, id, entries[i], front);
    }
    forall p ensures Get(once, p) == Get(twice, p) {
      if forall i | 0 <= i < |entries| :: entries[i].originalPath != p {
        RestoredFrame(d.files, roots, sha, id, entries, p);
        RestoredFrame(part.files, roots, sha, id, entries, p);
        RestoredFrame(d.files, roots, sha, id, front, p);
      }
    }
    SameLookups(once, twice);
  }

  lemma SameLookups(a: map<Path, Contents>, b: map<Path, Contents>)
    requires forall p :: Get(a, p) == Get(b, p)
    ensures a == b
  {
    forall p ensures p in a <==> p in b {
      assert Get(a, p) == Get(b, p);
    }
    forall p | p in a ensures a[p] == b[p] {
      assert Get(a, p) == Get(b, p);
    }
  }

  /** After a full rollback every entry is settled, so a second rollback writes and removes nothing. */
  lemma SecondRollbackIsIdle(
    d: Disk, again: Disk, roots: Roots, sha: Contents -> Digest, id: string, entries: seq<SnapshotEntry>,
    actions: seq<RestoreAction>)
    requires AllRestorable(d, roots, sha, id, entries)
    requires again.files == Restored(d.files, roots, sha, id, entries)
    ensures Restored(again.files, roots, sha, id, entries) == again.files
    ensures SummaryOf(again.files, roots, sha, id, entries, actions).restored == []
    ensures forall i | 0 <= i < |entries| :: Settled(again.files, sha, entries[i])
  {
    assert entries[..|entries|] == entries;
    RestoreResumable(d, again, roots, sha, id, entries, |entries|);
    forall i | 0 <= i < |entries| ensures Settled(again.files, sha, entries[i]) {
      RestoredAt(d, roots, sha, id, entries, i);
      assert EntryRestorable(d, roots, sha, id, entries[i]);
    }
    SettledIsIdle(again.files, roots, sha, id, entries, actions);
  }

  lemma {:induction false} SettledIsIdle(
    files: map<Path, Contents>, roots: Roots, sha: Contents -> Digest, id: string, entries: seq<SnapshotEntry>,
    actions: seq<RestoreAction>)
    requires forall i | 0 <= i < |entries| :: Settled(files, sha, entries[i])
    ensures Restored(files, roots, sha, id, entries) == files
    ensures SummaryOf(files, roots, sha, id, entries, actions).restored == []
  {
    if entries != [] {
      var n := |entries| - 1;
      assert forall i | 0 <= i < n :: entries[..n][i] == entries[i];
      SettledIsIdle(files, roots, sha, id, entries[..n], actions);
    }
  }

  /** The three lists of the summary partition the manifest entries, each in manifest order. */
  lemma {:induction false} SummaryPartitions(
    d: Disk, roots: Roots, sha: Contents -> Digest, id: string, entries: seq<SnapshotEntry>,
    actions: seq<RestoreAction>)
    requires AllRestorable(d, roots, sha, id, entries)
    ensures var s := SummaryOf(d.files, roots, sha, id, entries, actions);
      && s.deletedOrAbsent == PathsWhere(entries, (e: SnapshotEntry) => !e.originalExisted)
      && s.alreadyAtPreEdit
         == PathsWhere(entries, (e: SnapshotEntry) => e.originalExisted && AtPreEdit(d.files, sha, e))
      && s.restored == PathsWhere(entries, (e: SnapshotEntry) => e.originalExisted && !AtPreEdit(d.files, sha, e))
      && |s.restored| + |s.alreadyAtPreEdit| + |s.deletedOrAbsent| == |entries|
  {
    hide Roots.Protected, Roots.BackupPath, Sanitize, BackupRelative, RestoreOne, EntryRestorable, Restored;
    if entries != [] {
      var n := |entries| - 1;
      var front := entries[..n];
      assert AllRestorable(d, roots, sha, id, front);
      SummaryPartitions(d, roots, sha, id, front, actions);
      assert forall i | 0 <= i < n :: front[i].originalPath != entries[n].originalPath;
      RestoredFrame(d.files, roots, sha, id, front, entries[n].originalPath);
    }
  }

  /** A rollback of a restorable snapshot keeps every snapshot. */
  lemma RollbackKeeps(
    roots: Roots, sha: Contents -> Digest, d: Disk, later: Disk, id: string, entries: seq<SnapshotEntry>)
    requires forall i | 0 <= i < |entries| :: !roots.Protected(entries[i].originalPath)
    requires later.files == Restored(d.files, roots, sha, id, entries)
    ensures Keeps(roots, d, later)
    ensures forall p | roots.Protected(p) :: Same(d, later, p)
  {
    forall p | roots.Protected(p) ensures Same(d, later, p) {
      RestoredFrame(d.files, roots, sha, id, entries, p);
    }
    forall p | Under(roots.snapshots, p) && p in d.files ensures p in later.files && later.files[p] == d.files[p] {
      assert Same(d, later, p);
    }
  }
}
