/** The write primitive every writer goes through: check the captured state, write, record the result. */
module AtomicWrite {
  import opened Wrappers
  import opened Paths
  import opened Records
  import opened Manifest
  import opened Store

  /** There is an entry for `target` and, if the file existed at capture, it still has the captured digest. */
  ghost predicate WriteAllowed(d: Disk, sha: Contents -> Digest, m: SnapshotManifest, target: Path) {
    && Covers(m, target)
    && var e := EntryFor(m, target).value;
      e.originalExisted ==> target in d.files && sha(d.files[target]) == e.preEdit
  }

  /** The file was captured, is there, and no longer has the captured digest. */
  ghost predicate Overwritten(d: Disk, sha: Contents -> Digest, m: SnapshotManifest, target: Path) {
    Covers(m, target) && target in d.files && !WriteAllowed(d, sha, m, target)
  }

  /** The file existed at capture, so the primitive looks at it again before it writes. */
  predicate NeedsCheck(m: SnapshotManifest, target: Path) {
    EntryFor(m, target).Some? && EntryFor(m, target).value.originalExisted
  }

  /** `target` holds `content`, by leave of the captured state, and the manifest says so. */
  ghost predicate Written(
    d: Disk, later: Disk, sha: Contents -> Digest, m: SnapshotManifest, mLater: SnapshotManifest, target: Path,
    content: Contents)
  {
    && WriteAllowed(d, sha, m, target)
    && target in later.files && later.files[target] == content
    && mLater == RecordPostEdit(m, target, sha(content))
  }

  /** The write itself: only `target` differs, and it holds `content`. */
  ghost predicate Stores(e: Event, target: Path, content: Contents) {
    e.path == Some(target) && e.after == e.before.(files := e.before.files[target := content])
  }

  /**
   * A file that existed at capture is read first. Edits by others up to that read are noticed: the
   * write is refused with a hash mismatch, and the edit stays. Edits between the read and the write
   * are not: whether the write goes ahead does not depend on what it finds at the target.
   */
  method SnapshotThenWrite(
    fs: FileSystem, sha: Contents -> Digest, m: SnapshotManifest, target: Path, content: Contents)
    returns (r: Outcome<Error>, mLater: SnapshotManifest)
    modifies fs
    ensures fs.Advances()
    ensures mLater == if r.Pass? then RecordPostEdit(m, target, sha(content)) else m
    ensures !Covers(m, target) ==>
      r == Fail(NoManifestEntry(target)) && fs.state == old(fs.state) && fs.journal == old(fs.journal)
    ensures NeedsCheck(m, target) && (old(fs.fails(fs.ops)) || !WriteAllowed(old(fs.Found()), sha, m, target)) ==>
      && r.Fail? && fs.state == old(fs.Found())
      && fs.journal == old(fs.journal) + [Event(fs.state, fs.state, None)]
      && (r.error.HashMismatch? <==> !old(fs.fails(fs.ops)) && Overwritten(fs.state, sha, m, target))
    ensures NeedsCheck(m, target) && !old(fs.fails(fs.ops)) && WriteAllowed(old(fs.Found()), sha, m, target) ==>
      var checked, found := old(fs.Found()), old(fs.Others(fs.ops + 1, fs.Found()));
      && (r.Pass? <==> !old(fs.fails(fs.ops + 1)) && HasParent(found, target))
      && fs.journal == old(fs.journal)
           + [Event(checked, checked, None), Event(found, fs.state, if r.Pass? then Some(target) else None)]
      && (if r.Pass? then Stores(Event(found, fs.state, Some(target)), target, content) else fs.state == found)
      && (r.Fail? ==> r.error.Io?)
    ensures Covers(m, target) && !NeedsCheck(m, target) ==>
      var found := old(fs.Found());
      && (r.Pass? <==> !old(fs.fails(fs.ops)) && HasParent(found, target))
      && fs.journal == old(fs.journal) + [Event(found, fs.state, if r.Pass? then Some(target) else None)]
      && (if r.Pass? then Stores(Event(found, fs.state, Some(target)), target, content) else fs.state == found)
      && (r.Fail? ==> r.error.Io?)
    ensures r.Fail? && Covers(m, target) ==> r.error.Io? || r.error.HashMismatch?
  {
    hide FileSystem.OnRecord, IndexOf, RecordPostEdit, Merged;
    mLater := m;
    var entry := EntryFor(m, target);
    match entry {
      case None =>
        return Fail(NoManifestEntry(target)), m;
      case Some(e) =>
        if e.originalExisted {
          var current := fs.Read(target);
          if current.Failure? {
            return Fail(current.error), m;
          }
          var actual := sha(current.value);
          if actual != e.preEdit {
            return Fail(HashMismatch(target, e.preEdit, actual)), m;
          }
        }
    }
    r := fs.WriteAtomic(target, content);
    if r.Fail? {
      return;
    }
    mLater := RecordPostEdit(m, target, sha(content));
  }

  /** Declares a path that did not exist at capture; a no-op when an entry is there already. */
  method DeclareCreatedEntry(
    m: SnapshotManifest, target: Path, backup: Path, producedBy: StepKind)
    returns (mLater: SnapshotManifest)
    ensures Covers(m, target) ==> mLater == m
    ensures !Covers(m, target) ==> mLater == PushEntry(m, SnapshotEntry(target, backup, "", None, false, producedBy))
    ensures Extends(m, mLater) && Covers(mLater, target)
  {
    mLater := m;
    if EntryFor(m, target).Some? {
      return;
    }
    mLater := PushEntry(m, SnapshotEntry(target, backup, "", None, false, producedBy));
    PushEntryExtends(m, SnapshotEntry(target, backup, "", None, false, producedBy));
    var n := |m.entries|;
    assert mLater.entries[n].originalPath == target;
    CoversAt(mLater, n);
  }

  /**
   * No lost update: after a write that changed the content of a file which existed at capture,
   * every later write to it under the same snapshot is refused until the captured content is back.
   */
  lemma OneChangingWrite(
    d: Disk, later: Disk, latest: Disk, sha: Contents -> Digest,
    m: SnapshotManifest, mLater: SnapshotManifest, mLatest: SnapshotManifest, target: Path, content: Contents)
    requires Written(d, later, sha, m, mLater, target, content)
    requires EntryFor(m, target).value.originalExisted
    requires sha(content) != EntryFor(m, target).value.preEdit
    requires Extends(mLater, mLatest) && Same(later, latest, target)
    ensures !WriteAllowed(latest, sha, mLatest, target)
  {
    RecordPostEditExtends(m, target, sha(content));
    ExtendsTransitive(m, mLater, mLatest);
    ExtendsEntryFor(m, mLatest, target);
  }
}
