/** The snapshot manifest: lookup, update, and what a rewrite of it may change. */
module Manifest {
  import opened Wrappers
  import opened Paths
  import opened Records

  /** Position of the first entry for `target`, or the length when there is none. */
  function IndexOf(entries: seq<SnapshotEntry>, target: Path): (i: nat)
    ensures i <= |entries|
    ensures i < |entries| ==> entries[i].originalPath == target
    ensures forall j | 0 <= j < i :: entries[j].originalPath != target
  {
    if entries == [] then 0
    else if entries[0].originalPath == target then 0
    else 1 + IndexOf(entries[1..], target)
  }

  function EntryFor(m: SnapshotManifest, target: Path): Option<SnapshotEntry> {
    var i := IndexOf(m.entries, target);
    if i < |m.entries| then Some(m.entries[i]) else None
  }

  predicate Covers(m: SnapshotManifest, target: Path) {
    EntryFor(m, target).Some?
  }

  lemma CoversAt(m: SnapshotManifest, i: nat)
    requires i < |m.entries|
    ensures Covers(m, m.entries[i].originalPath)
  {
  }

  function PushEntry(m: SnapshotManifest, entry: SnapshotEntry): SnapshotManifest {
    m.(entries := m.entries + [entry])
  }

  function PushAction(m: SnapshotManifest, action: RestoreAction): SnapshotManifest {
    m.(restoreActions := m.restoreActions + [action])
  }

  /** Fills the post-edit hash of the entry for `target`, if there is one. */
  function RecordPostEdit(m: SnapshotManifest, target: Path, hash: Digest): SnapshotManifest {
    var i := IndexOf(m.entries, target);
    if i < |m.entries| then
      m.(entries := m.entries[i := m.entries[i].(postEdit := Some(hash))])
    else
      m
  }

  ghost predicate DistinctPaths(entries: seq<SnapshotEntry>) {
    forall i, j | 0 <= i < j < |entries| :: entries[i].originalPath != entries[j].originalPath
  }

  lemma IndexOfAt(entries: seq<SnapshotEntry>, i: nat)
    requires DistinctPaths(entries) && i < |entries|
    ensures IndexOf(entries, entries[i].originalPath) == i
  {
  }

  /** `e` and `f` describe the same capture; only the post-edit hash may have been filled. */
  predicate SameCapture(e: SnapshotEntry, f: SnapshotEntry) {
    f.(postEdit := e.postEdit) == e && (e.postEdit.Some? ==> f.postEdit.Some?)
  }

  /**
   * `later` is a legitimate rewrite of `m`: entries and actions are only appended, and a new entry is for a new
   * path that did not exist.
   */
  ghost predicate Extends(m: SnapshotManifest, later: SnapshotManifest) {
    && later.id == m.id
    && |m.entries| <= |later.entries|
    && m.restoreActions <= later.restoreActions
    && (forall i | 0 <= i < |m.entries| :: SameCapture(m.entries[i], later.entries[i]))
    && (forall i | |m.entries| <= i < |later.entries| :: !later.entries[i].originalExisted)
    && (DistinctPaths(m.entries) ==> DistinctPaths(later.entries))
  }

  lemma ExtendsTransitive(a: SnapshotManifest, b: SnapshotManifest, c: SnapshotManifest)
    requires Extends(a, b) && Extends(b, c)
    ensures Extends(a, c)
  {
    assert forall i | 0 <= i < |a.entries| ::
      SameCapture(a.entries[i], b.entries[i]) && SameCapture(b.entries[i], c.entries[i]);
    forall i | |a.entries| <= i < |c.entries| ensures !c.entries[i].originalExisted {
      if i < |b.entries| {
        assert SameCapture(b.entries[i], c.entries[i]);
      }
    }
  }

  lemma ExtendsCovers(m: SnapshotManifest, later: SnapshotManifest, p: Path)
    requires Extends(m, later) && Covers(m, p)
    ensures Covers(later, p)
  {
    var i := IndexOf(m.entries, p);
    assert SameCapture(m.entries[i], later.entries[i]);
  }

  /** A rewrite keeps what `entry_for` answers, up to the post-edit hash. */
  lemma ExtendsEntryFor(m: SnapshotManifest, later: SnapshotManifest, p: Path)
    requires Extends(m, later) && Covers(m, p)
    ensures Covers(later, p) && SameCapture(EntryFor(m, p).value, EntryFor(later, p).value)
  {
    var i := IndexOf(m.entries, p);
    assert forall j | 0 <= j <= i :: SameCapture(m.entries[j], later.entries[j]);
    assert IndexOf(later.entries, p) == i;
  }

  lemma RecordPostEditExtends(m: SnapshotManifest, target: Path, hash: Digest)
    ensures Extends(m, RecordPostEdit(m, target, hash))
  {
  }

  lemma PushActionExtends(m: SnapshotManifest, action: RestoreAction)
    ensures Extends(m, PushAction(m, action))
  {
  }

  lemma PushEntryExtends(m: SnapshotManifest, entry: SnapshotEntry)
    requires !Covers(m, entry.originalPath) && !entry.originalExisted
    ensures Extends(m, PushEntry(m, entry))
  {
    var later := PushEntry(m, entry);
    assert forall j | 0 <= j < |m.entries| :: m.entries[j].originalPath != entry.originalPath;
  }

  // ----- post-edit hashes read back -----

  lemma RecordedPostEdit(m: SnapshotManifest, target: Path, hash: Digest, q: Path)
    ensures var later := RecordPostEdit(m, target, hash);
      Covers(later, q) == Covers(m, q)
      && (Covers(m, q) ==>
            var e := EntryFor(m, q).value;
            EntryFor(later, q).value == (if q == target then e.(postEdit := Some(hash)) else e))
  {
    var later := RecordPostEdit(m, target, hash);
    var i := IndexOf(m.entries, q);
    assert forall j | 0 <= j < |m.entries| :: later.entries[j].originalPath == m.entries[j].originalPath;
    assert IndexOf(later.entries, q) == i;
  }
}
