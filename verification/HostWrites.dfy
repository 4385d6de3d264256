/** Lists of writes to host files, and what a disk holds after them. */
module HostWrites {
  import opened Paths
  import opened Records
  import opened Store

  datatype Write = Write(path: Path, content: Contents)

  function Apply(files: map<Path, Contents>, writes: seq<Write>): map<Path, Contents> {
    if writes == [] then files
    else Apply(files, writes[..|writes| - 1])[writes[|writes| - 1].path := writes[|writes| - 1].content]
  }

  ghost function WritePaths(writes: seq<Write>): set<Path> {
    set w | w in writes :: w.path
  }

  ghost predicate DistinctWrites(writes: seq<Write>) {
    forall i, j | 0 <= i < j < |writes| :: writes[i].path != writes[j].path
  }

  /** Where no path is written twice, each write is there in the end. */
  lemma DistinctLand(files: map<Path, Contents>, writes: seq<Write>, w: Write)
    requires DistinctWrites(writes) && w in writes
    ensures w.path in Apply(files, writes) && Apply(files, writes)[w.path] == w.content
  {
    var n := |writes| - 1;
    if w != writes[n] {
      var k :| 0 <= k < |writes| && writes[k] == w;
      var front := writes[..n];
      assert front[k] == w && w.path != writes[n].path;
      assert forall i | 0 <= i < n :: front[i] == writes[i];
      DistinctLand(files, front, w);
    }
  }

  lemma WritePathsSnoc(writes: seq<Write>, w: Write)
    ensures WritePaths(writes + [w]) == WritePaths(writes) + {w.path}
  {
    assert w in writes + [w];
  }

  lemma WritePathsAppend(a: seq<Write>, b: seq<Write>)
    ensures WritePaths(a + b) == WritePaths(a) + WritePaths(b)
  {
  }

  lemma ApplySnoc(files: map<Path, Contents>, writes: seq<Write>, w: Write)
    ensures Apply(files, writes + [w]) == Apply(files, writes)[w.path := w.content]
  {
    assert (writes + [w])[..|writes + [w]| - 1] == writes;
  }

  lemma ApplyAppend(files: map<Path, Contents>, a: seq<Write>, b: seq<Write>)
    ensures Apply(files, a + b) == Apply(Apply(files, a), b)
  {
    if b == [] {
      assert a + b == a;
    } else {
      var n := |b| - 1;
      assert (a + b)[..|a + b| - 1] == a + b[..n];
      ApplyAppend(files, a, b[..n]);
    }
  }

  /** The result of the writes depends on the earlier files only where nothing is written. */
  lemma ApplyDependsOutside(f: map<Path, Contents>, g: map<Path, Contents>, writes: seq<Write>, p: Path)
    requires p in WritePaths(writes) || ((p in f <==> p in g) && (p in f ==> f[p] == g[p]))
    ensures var a, b := Apply(f, writes), Apply(g, writes); (p in a <==> p in b) && (p in a ==> a[p] == b[p])
  {
    if writes != [] {
      var n := |writes| - 1;
      if writes[n].path != p {
        assert p in WritePaths(writes) ==> p in WritePaths(writes[..n]);
        ApplyDependsOutside(f, g, writes[..n], p);
      }
    }
  }

  // ----- the host's files -----

  /** At `paths` the host has what `files` has. */
  ghost predicate HostIs(paths: set<Path>, d: Disk, files: map<Path, Contents>) {
    forall p | p in paths :: (p in d.files <==> p in files) && (p in files ==> d.files[p] == files[p])
  }

  lemma HostIsStep(paths: set<Path>, d: Disk, later: Disk, files: map<Path, Contents>, w: Write)
    requires HostIs(paths, d, files)
    requires forall p | p in paths && p != w.path :: Same(d, later, p)
    requires w.path in later.files && later.files[w.path] == w.content
    ensures HostIs(paths, later, files[w.path := w.content])
  {
    forall p | p in paths
      ensures (p in later.files <==> p in files[w.path := w.content])
      ensures p in later.files ==> later.files[p] == files[w.path := w.content][p]
    {
      if p != w.path {
        assert Same(d, later, p);
      }
    }
  }

  lemma HostIsKept(paths: set<Path>, d: Disk, later: Disk, files: map<Path, Contents>)
    requires HostIs(paths, d, files) && forall p | p in paths :: Same(d, later, p)
    ensures HostIs(paths, later, files)
  {
    forall p | p in paths
      ensures (p in later.files <==> p in files) && (p in files ==> later.files[p] == files[p])
    {
      assert Same(d, later, p);
    }
  }

  /** Writes chained: from what the host held before the earlier ones. */
  lemma HostIsAppend(
    paths: set<Path>, later: Disk, mid: Disk, files: map<Path, Contents>, a: seq<Write>, b: seq<Write>)
    requires HostIs(paths, mid, Apply(files, a)) && HostIs(paths, later, Apply(mid.files, b))
    ensures HostIs(paths, later, Apply(files, a + b))
  {
    ApplyAppend(files, a, b);
    forall p | p in paths
      ensures p in later.files <==> p in Apply(files, a + b)
      ensures p in later.files ==> later.files[p] == Apply(files, a + b)[p]
    {
      ApplyDependsOutside(mid.files, Apply(files, a), b, p);
    }
  }
}
