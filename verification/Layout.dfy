/** What it means for a disk to hold a snapshot, and which changes of the disk keep it. */
module Layout {
  import opened Paths
  import opened Records
  import opened Manifest
  import opened Store

  function BackupRelative(target: Path): Path {
    [FILES_SUBDIR, Sanitize(target)]
  }

  ghost predicate HasManifest(d: Disk, roots: Roots, id: string) {
    var p := roots.ManifestPath(id);
    p in d.files && d.files[p].ManifestFile?
  }

  ghost function ManifestOf(d: Disk, roots: Roots, id: string): SnapshotManifest
    requires HasManifest(d, roots, id)
  {
    d.files[roots.ManifestPath(id)].manifest
  }

  /** The entry is for a host file and names the backup that belongs to it. */
  ghost predicate TidyEntry(roots: Roots, e: SnapshotEntry) {
    !roots.Protected(e.originalPath) && e.backupPath == BackupRelative(e.originalPath)
  }

  /** An extension of the manifest whose new entries are for host paths. */
  ghost predicate Rewrites(roots: Roots, m: SnapshotManifest, later: SnapshotManifest) {
    && Extends(m, later)
    && forall i | |m.entries| <= i < |later.entries| ::
         TidyEntry(roots, later.entries[i])
  }

  lemma RewritesTransitive(roots: Roots, a: SnapshotManifest, b: SnapshotManifest, c: SnapshotManifest)
    requires Rewrites(roots, a, b) && Rewrites(roots, b, c)
    ensures Rewrites(roots, a, c)
  {
    ExtendsTransitive(a, b, c);
    forall i | |a.entries| <= i < |c.entries|
      ensures TidyEntry(roots, c.entries[i])
    {
      if i < |b.entries| {
        assert SameCapture(b.entries[i], c.entries[i]);
      }
    }
  }

  ghost predicate Rewritten(roots: Roots, c: Contents, later: Contents) {
    c.ManifestFile? && later.ManifestFile? && Rewrites(roots, c.manifest, later.manifest)
  }

  /** Nothing under the snapshots root is lost: backups stay as they are and manifests are only extended. */
  ghost predicate Keeps(roots: Roots, d: Disk, later: Disk) {
    forall p | Under(roots.snapshots, p) && p in d.files ::
      p in later.files
      && (later.files[p] == d.files[p]
          || (roots.IsManifestPath(p) && Rewritten(roots, d.files[p], later.files[p])))
  }

  /** No file appears under the snapshots root. */
  ghost predicate AddsNothing(roots: Roots, d: Disk, later: Disk) {
    forall p | Under(roots.snapshots, p) && p in later.files :: p in d.files
  }

  /** Files appear under the snapshots root in the directory of snapshot `id` only. */
  ghost predicate AddsOnlyIn(roots: Roots, id: string, d: Disk, later: Disk) {
    forall p | Under(roots.snapshots, p) && !Under(roots.SnapshotDir(id), p) && p in later.files :: p in d.files
  }

  lemma KeepsTransitive(roots: Roots, a: Disk, b: Disk, c: Disk)
    requires Keeps(roots, a, b) && Keeps(roots, b, c)
    ensures Keeps(roots, a, c)
  {
    forall p | Under(roots.snapshots, p) && p in a.files
      ensures p in c.files
      ensures c.files[p] == a.files[p] || (roots.IsManifestPath(p) && Rewritten(roots, a.files[p], c.files[p]))
    {
      assert p in b.files;
      if b.files[p] != a.files[p] && c.files[p] != b.files[p] {
        RewritesTransitive(roots, a.files[p].manifest, b.files[p].manifest, c.files[p].manifest);
      }
    }
  }

  lemma KeepsManifest(roots: Roots, d: Disk, later: Disk, id: string)
    requires Keeps(roots, d, later) && HasManifest(d, roots, id)
    ensures HasManifest(later, roots, id)
    ensures Rewrites(roots, ManifestOf(d, roots, id), ManifestOf(later, roots, id))
  {
    var p := roots.ManifestPath(id);
    assert Under(roots.snapshots, p) && roots.IsManifestPath(p);
  }

  lemma BackupIsNoManifest(roots: Roots, id: string, target: Path)
    ensures var p := roots.BackupPath(id, BackupRelative(target));
      Under(roots.snapshots, p) && Under(roots.SnapshotDir(id), p) && !roots.IsManifestPath(p)
  {
  }

  /** Writing a host file, or any file that is not under the snapshots root, keeps every snapshot. */
  lemma HostWriteKeeps(roots: Roots, d: Disk, later: Disk, p: Path)
    requires !Under(roots.snapshots, p)
    requires forall q | q != p :: Same(d, later, q)
    ensures Keeps(roots, d, later) && AddsNothing(roots, d, later)
  {
    forall q | Under(roots.snapshots, q)
      ensures Same(d, later, q)
    {
    }
  }

  /** What others do between two operations keeps every snapshot. */
  lemma OthersKeep(roots: Roots, d: Disk, later: Disk)
    requires SameOwn(roots, d, later)
    ensures Keeps(roots, d, later) && AddsNothing(roots, d, later)
    ensures forall id | HasManifest(d, roots, id) ::
      HasManifest(later, roots, id) && ManifestOf(later, roots, id) == ManifestOf(d, roots, id)
  {
    forall p | Under(roots.snapshots, p) ensures Same(d, later, p) {
      assert roots.Protected(p);
    }
    forall id | HasManifest(d, roots, id)
      ensures HasManifest(later, roots, id) && ManifestOf(later, roots, id) == ManifestOf(d, roots, id)
    {
      assert Under(roots.snapshots, roots.ManifestPath(id));
    }
  }

  /** Persisting an extended manifest keeps every snapshot. */
  lemma ManifestWriteKeeps(roots: Roots, d: Disk, id: string, m: SnapshotManifest)
    requires HasManifest(d, roots, id) && Rewrites(roots, ManifestOf(d, roots, id), m)
    ensures Keeps(roots, d, d.(files := d.files[roots.ManifestPath(id) := ManifestFile(m)]))
  {
    assert roots.IsManifestPath(roots.ManifestPath(id));
  }

  // ----- what a snapshot promises -----

  /** Distinct host paths, each with its own backup name. */
  ghost predicate Tidy(roots: Roots, m: SnapshotManifest) {
    DistinctPaths(m.entries) && forall i | 0 <= i < |m.entries| :: TidyEntry(roots, m.entries[i])
  }

  /** Every entry for a file that existed has a backup whose digest is the captured one. */
  ghost predicate Restorable(d: Disk, roots: Roots, sha: Contents -> Digest, id: string)
    requires HasManifest(d, roots, id)
  {
    AllRestorable(d, roots, sha, id, ManifestOf(d, roots, id).entries)
  }

  ghost predicate AllRestorable(
    d: Disk, roots: Roots, sha: Contents -> Digest, id: string, entries: seq<SnapshotEntry>)
  {
    DistinctPaths(entries) && forall i | 0 <= i < |entries| :: EntryRestorable(d, roots, sha, id, entries[i])
  }

  ghost predicate EntryRestorable(d: Disk, roots: Roots, sha: Contents -> Digest, id: string, e: SnapshotEntry) {
    && TidyEntry(roots, e)
    && (e.originalExisted ==>
          var b := roots.BackupPath(id, e.backupPath);
          b in d.files && sha(d.files[b]) == e.preEdit)
  }

  /** The entry records what `seen` has at its path, and the backup is that content. */
  ghost predicate EntryBacks(
    d: Disk, roots: Roots, sha: Contents -> Digest, id: string, e: SnapshotEntry, seen: map<Path, Contents>)
  {
    && EntryRestorable(d, roots, sha, id, e)
    && (e.originalExisted <==> e.originalPath in seen)
    && (e.originalExisted ==> d.files[roots.BackupPath(id, e.backupPath)] == seen[e.originalPath])
  }

  /** The snapshot `id` on `d` holds what `seen` has at `targets`. */
  ghost predicate Backs(
    d: Disk, roots: Roots, sha: Contents -> Digest, id: string, targets: seq<Path>, seen: map<Path, Contents>)
  {
    && HasManifest(d, roots, id)
    && Restorable(d, roots, sha, id)
    && var entries := ManifestOf(d, roots, id).entries;
      && |targets| <= |entries|
      && (forall i | 0 <= i < |targets| ::
            entries[i].originalPath == targets[i] && EntryBacks(d, roots, sha, id, entries[i], seen))
  }

  lemma BackupKept(roots: Roots, d: Disk, later: Disk, id: string, e: SnapshotEntry)
    requires Keeps(roots, d, later)
    requires e.backupPath == BackupRelative(e.originalPath)
    requires roots.BackupPath(id, e.backupPath) in d.files
    ensures var b := roots.BackupPath(id, e.backupPath); b in later.files && later.files[b] == d.files[b]
  {
    BackupIsNoManifest(roots, id, e.originalPath);
  }

  lemma TidyKept(roots: Roots, d: Disk, later: Disk, id: string)
    requires HasManifest(d, roots, id) && Tidy(roots, ManifestOf(d, roots, id))
    requires Keeps(roots, d, later)
    ensures HasManifest(later, roots, id) && Tidy(roots, ManifestOf(later, roots, id))
  {
    KeepsManifest(roots, d, later, id);
    var es, fs := ManifestOf(d, roots, id).entries, ManifestOf(later, roots, id).entries;
    forall i | 0 <= i < |fs| ensures TidyEntry(roots, fs[i]) {
      if i < |es| {
        assert SameCapture(es[i], fs[i]) && TidyEntry(roots, es[i]);
      }
    }
  }

  /** Restorability survives everything that keeps the snapshots. */
  lemma RestorableKept(roots: Roots, sha: Contents -> Digest, d: Disk, later: Disk, id: string)
    requires HasManifest(d, roots, id) && Restorable(d, roots, sha, id)
    requires Keeps(roots, d, later)
    ensures HasManifest(later, roots, id) && Restorable(later, roots, sha, id)
  {
    KeepsManifest(roots, d, later, id);
    var es, fs := ManifestOf(d, roots, id).entries, ManifestOf(later, roots, id).entries;
    forall i | 0 <= i < |fs| ensures EntryRestorable(later, roots, sha, id, fs[i]) {
      if i < |es| {
        assert SameCapture(es[i], fs[i]) && EntryRestorable(d, roots, sha, id, es[i]);
        if es[i].originalExisted {
          BackupKept(roots, d, later, id, es[i]);
        }
      }
    }
  }

  /** ... and so does holding what was seen of an earlier state of the host. */
  lemma BacksKept(
    roots: Roots, sha: Contents -> Digest, d: Disk, later: Disk, id: string, targets: seq<Path>,
    seen: map<Path, Contents>)
    requires Backs(d, roots, sha, id, targets, seen)
    requires Keeps(roots, d, later)
    ensures Backs(later, roots, sha, id, targets, seen)
  {
    RestorableKept(roots, sha, d, later, id);
    KeepsManifest(roots, d, later, id);
    var es, fs := ManifestOf(d, roots, id).entries, ManifestOf(later, roots, id).entries;
    forall i | 0 <= i < |targets|
      ensures fs[i].originalPath == targets[i] && EntryBacks(later, roots, sha, id, fs[i], seen)
    {
      assert SameCapture(es[i], fs[i]) && EntryBacks(d, roots, sha, id, es[i], seen);
      assert EntryRestorable(later, roots, sha, id, fs[i]);
      if es[i].originalExisted {
        BackupKept(roots, d, later, id, es[i]);
      }
    }
  }
}
