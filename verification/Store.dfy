/**
 * The file store every edit goes through, after the in-memory backend, made faulty and shared.
 *
 * Two oracles stand for what Virtu does not control. `fails` says which operations fail; a process
 * that stops for good between two operations is one whose every later operation fails. `edits` is
 * what other programs, users and the host commands Virtu runs do to the host before each operation:
 * anything, except to Virtu's own directories. A statement about all oracles is thus about every
 * point at which a process may stop and about every edit made in between.
 */
module Store {
  import opened Wrappers
  import opened Paths
  import opened Records

  /** The host as Virtu sees it: its files, and the libvirt domains defined on it. */
  datatype Disk = Disk(files: map<Path, Contents>, dirs: set<Path>, executable: set<Path>, domains: set<string>) {
    predicate Exists(p: Path) {
      p in files || p in dirs
    }
  }

  ghost predicate Same(d: Disk, later: Disk, p: Path) {
    (p in d.files <==> p in later.files) && (p in d.files ==> later.files[p] == d.files[p])
  }

  ghost predicate HasParent(d: Disk, p: Path) {
    p == [] || p[..|p| - 1] in d.dirs
  }

  // ----- what others may do -----

  /** Virtu's own files and directories are the same on both disks. */
  ghost predicate SameOwn(roots: Roots, d: Disk, later: Disk) {
    forall p | roots.Protected(p) :: Same(d, later, p) && (p in d.dirs <==> p in later.dirs)
  }

  /** Virtu's own files are the same on both disks. */
  ghost predicate OwnFiles(roots: Roots, d: Disk, later: Disk) {
    forall p | roots.Protected(p) :: Same(d, later, p)
  }

  /** `own` in Virtu's directories and `theirs` everywhere else. */
  function Merged(roots: Roots, own: Disk, theirs: Disk): (r: Disk)
    ensures SameOwn(roots, own, r)
    ensures forall p | !roots.Protected(p) :: Same(theirs, r, p) && (p in r.dirs <==> p in theirs.dirs)
    ensures r.domains == theirs.domains
  {
    Disk(
      (map p | p in own.files && roots.Protected(p) :: own.files[p])
      + (map p | p in theirs.files && !roots.Protected(p) :: theirs.files[p]),
      (set p | p in own.dirs && roots.Protected(p)) + (set p | p in theirs.dirs && !roots.Protected(p)),
      (set p | p in own.executable && roots.Protected(p)) + (set p | p in theirs.executable && !roots.Protected(p)),
      theirs.domains)
  }

  /** `paths` are as they were, no directory is gone, and the domains are the same. */
  ghost predicate HandsOff(paths: set<Path>, d: Disk, later: Disk) {
    && (forall p | p in paths ::
          Same(d, later, p) && (p in d.dirs <==> p in later.dirs) && (p in d.executable <==> p in later.executable))
    && d.dirs <= later.dirs && later.domains == d.domains
  }

  // ----- operations on record -----

  /** One operation: the disk it found, the disk it left, and the file it changed, if it did. */
  datatype Event = Event(before: Disk, after: Disk, path: Option<Path>)

  /** The operation changed no file but its own. */
  ghost predicate Local(e: Event) {
    forall p | e.path != Some(p) :: Same(e.before, e.after, p)
  }

  /** The disk that was there before others acted ahead of operation `k`. */
  function Left(start: Disk, journal: seq<Event>, n: nat, k: nat): Disk
    requires n <= k < |journal|
  {
    if k == n then start else journal[k - 1].after
  }

  /** `d` is what the operations from `n` on, and others between them, have made of `start`. */
  ghost predicate Chained(roots: Roots, start: Disk, journal: seq<Event>, n: nat, d: Disk) {
    && n <= |journal|
    && d == (if n == |journal| then start else journal[|journal| - 1].after)
    && forall k | n <= k < |journal| ::
         Local(journal[k]) && OwnFiles(roots, Left(start, journal, n, k), journal[k].before)
  }

  /** Others leave `p` alone ahead of the operations from `n` to `k`. */
  ghost predicate LeftAlone(start: Disk, journal: seq<Event>, n: nat, k: nat, p: Path) {
    forall i | n <= i <= k && i < |journal| :: Same(Left(start, journal, n, i), journal[i].before, p)
  }

  /** Something is logged from `n` on that changes the file at `target`. */
  ghost predicate Logged(journal: seq<Event>, n: nat, target: Path) {
    exists k :: n <= k < |journal| && journal[k].path == Some(target)
  }

  lemma SameTransitive(a: Disk, b: Disk, c: Disk, p: Path)
    requires Same(a, b, p) && Same(b, c, p)
    ensures Same(a, c, p)
  {
  }

  lemma OwnFilesMore(roots: Roots, a: Disk, b: Disk, c: Disk)
    requires OwnFiles(roots, a, b) && OwnFiles(roots, b, c)
    ensures OwnFiles(roots, a, c)
  {
    forall p | roots.Protected(p) ensures Same(a, c, p) {
      SameTransitive(a, b, c, p);
    }
  }

  lemma LocalAt(e: Event, p: Path)
    requires Local(e) && e.path != Some(p)
    ensures Same(e.before, e.after, p)
  {
  }

  /** A file changes only by an operation on record or by the hand of others. */
  lemma {:induction false} UnchangedUpTo(start: Disk, journal: seq<Event>, n: nat, k: nat, p: Path)
    requires n <= k < |journal| && forall i | n <= i < k :: Local(journal[i]) && journal[i].path != Some(p)
    requires LeftAlone(start, journal, n, k, p)
    ensures Same(start, journal[k].before, p)
  {
    hide Same, Local;
    var left := Left(start, journal, n, k);
    assert Same(left, journal[k].before, p);
    if k > n {
      UnchangedUpTo(start, journal, n, k - 1, p);
      LocalAt(journal[k - 1], p);
      SameTransitive(start, journal[k - 1].before, left, p);
      SameTransitive(start, left, journal[k].before, p);
    }
  }

  lemma UnchangedThroughout(roots: Roots, start: Disk, journal: seq<Event>, n: nat, d: Disk, p: Path)
    requires Chained(roots, start, journal, n, d)
    requires forall i | n <= i < |journal| :: journal[i].path != Some(p)
    requires LeftAlone(start, journal, n, |journal|, p)
    ensures Same(start, d, p)
  {
    if n < |journal| {
      hide Same, Local;
      var k := |journal| - 1;
      UnchangedUpTo(start, journal, n, k, p);
      LocalAt(journal[k], p);
      SameTransitive(start, journal[k].before, d, p);
    }
  }

  /** One more operation is on record. */
  lemma ChainedGrows(roots: Roots, start: Disk, journal: seq<Event>, d: Disk, e: Event)
    requires Chained(roots, start, journal, 0, d) && Local(e) && OwnFiles(roots, d, e.before)
    ensures Chained(roots, start, journal + [e], 0, e.after)
  {
    hide Local, OwnFiles;
    var more := journal + [e];
    forall k | 0 <= k < |more| ensures Local(more[k]) && OwnFiles(roots, Left(start, more, 0, k), more[k].before) {
      if k < |journal| {
        assert more[k] == journal[k];
        assert Left(start, more, 0, k) == Left(start, journal, 0, k);
      }
    }
  }

  /** What the operations since `journal` have made of the disk that was there then. */
  lemma ChainedSince(roots: Roots, origin: Disk, journal: seq<Event>, d: Disk, more: seq<Event>, later: Disk)
    requires Chained(roots, origin, journal, 0, d) && Chained(roots, origin, more, 0, later) && journal <= more
    ensures Chained(roots, d, more, |journal|, later)
  {
    hide Local, OwnFiles;
    forall k | |journal| <= k < |more|
      ensures Local(more[k]) && OwnFiles(roots, Left(d, more, |journal|, k), more[k].before)
    {
      assert OwnFiles(roots, Left(origin, more, 0, k), more[k].before);
    }
  }

  // ----- the store -----

  class FileSystem {
    var state: Disk
    var ops: nat
    const fails: nat -> bool
    const edits: (nat, Disk) -> Disk
    const reserved: Roots
    ghost const origin: Disk
    ghost var journal: seq<Event>
    ghost var commands: seq<string>

    constructor (state: Disk, fails: nat -> bool, edits: (nat, Disk) -> Disk, reserved: Roots)
      ensures this.state == state && ops == 0 && journal == [] && commands == [] && OnRecord()
      ensures this.fails == fails && this.edits == edits && this.reserved == reserved
    {
      this.state := state;
      this.fails := fails;
      this.edits := edits;
      this.reserved := reserved;
      origin := state;
      ops := 0;
      journal := [];
      commands := [];
    }

    /** What others make of `d` ahead of operation `n`. */
    function Others(n: nat, d: Disk): (later: Disk)
      ensures SameOwn(reserved, d, later)
    {
      Merged(reserved, d, edits(n, d))
    }

    /** The disk the next operation will find. */
    function Found(): (d: Disk)
      reads this
      ensures SameOwn(reserved, state, d)
    {
      Others(ops, state)
    }

    /** No operation from here on is made to fail. */
    ghost predicate Calm()
      reads this
    {
      forall n | n >= ops :: !fails(n)
    }

    /** From here on others leave `paths`, the existing directories and the domains alone. */
    ghost predicate Quiet(paths: set<Path>)
      reads this
    {
      forall n, d | n >= ops :: HandsOff(paths, d, Others(n, d))
    }

    /** From here on others do nothing at all. */
    ghost predicate Idle()
      reads this
    {
      forall n, d | n >= ops :: Others(n, d) == d
    }

    /** The operations on record explain the disk. */
    ghost predicate OnRecord()
      reads this
    {
      Chained(reserved, origin, journal, 0, state)
    }

    /** Operations have been added to the record, and it still explains the disk. */
    twostate predicate Advances()
      reads this
    {
      && old(ops) <= ops && old(journal) <= journal && old(commands) <= commands
      && (old(OnRecord()) ==> OnRecord())
    }

    /** One operation has been made, which changed the file at `path` if there is one. */
    twostate predicate Did(path: Option<Path>)
      reads this
    {
      && ops == old(ops) + 1
      && journal == old(journal) + [Event(old(Found()), state, path)]
      && Local(Event(old(Found()), state, path))
    }

    /** Others act, and then it is the turn of the next operation. */
    method Begin() returns (failing: bool)
      modifies `state, `ops
      ensures state == old(Found()) && ops == old(ops) + 1 && failing == fails(old(ops))
    {
      failing := fails(ops);
      state := Found();
      ops := ops + 1;
    }

    /** Puts the operation just made on record. */
    ghost method Log(left: Disk, found: Disk, path: Option<Path>)
      requires SameOwn(reserved, left, found) && Local(Event(found, state, path))
      modifies `journal
      ensures journal == old(journal) + [Event(found, state, path)]
      ensures Chained(reserved, origin, old(journal), 0, left) ==> Chained(reserved, origin, journal, 0, state)
    {
      if Chained(reserved, origin, journal, 0, left) {
        ChainedGrows(reserved, origin, journal, left, Event(found, state, path));
      }
      journal := journal + [Event(found, state, path)];
    }

    method Read(path: Path) returns (r: Result<Contents, Error>)
      modifies this
      ensures Did(None) && Advances() && state == old(Found())
      ensures r == if fails(old(ops)) then Failure(Io(path, Injected))
                   else if path in state.files then Success(state.files[path])
                   else Failure(Io(path, NotFound))
    {
      hide Chained, Merged, SameOwn;
      var failing := Begin();
      Log(old(state), state, None);
      if failing {
        return Failure(Io(path, Injected));
      }
      if path in state.files {
        return Success(state.files[path]);
      }
      return Failure(Io(path, NotFound));
    }

    method Exists(path: Path) returns (there: bool)
      modifies this
      ensures Did(None) && Advances() && state == old(Found())
      ensures there == state.Exists(path)
    {
      hide Chained, Merged, SameOwn;
      var _ := Begin();
      Log(old(state), state, None);
      there := state.Exists(path);
    }

    method IsExecutable(path: Path) returns (marked: bool)
      modifies this
      ensures Did(None) && Advances() && state == old(Found())
      ensures marked == (path in state.executable)
    {
      hide Chained, Merged, SameOwn;
      var _ := Begin();
      Log(old(state), state, None);
      marked := path in state.executable;
    }

    method WriteAtomic(path: Path, content: Contents) returns (r: Outcome<Error>)
      modifies this
      ensures Did(if r.Pass? then Some(path) else None) && Advances()
      ensures r.Pass? <==> !fails(old(ops)) && HasParent(old(Found()), path)
      ensures r.Pass? ==> state == old(Found()).(files := old(Found()).files[path := content])
      ensures r.Fail? ==> state == old(Found())
      ensures r.Fail? ==> r.error == Io(path, if fails(old(ops)) then Injected else NotFound)
    {
      hide Chained, Merged, SameOwn;
      var failing := Begin();
      ghost var found := state;
      if failing {
        Log(old(state), found, None);
        return Fail(Io(path, Injected));
      }
      if path != [] && path[..|path| - 1] !in state.dirs {
        Log(old(state), found, None);
        return Fail(Io(path, NotFound));
      }
      state := state.(files := state.files[path := content]);
      Log(old(state), found, Some(path));
      return Pass;
    }

    /** Creates `path` and every missing ancestor, walking up towards the root. */
    method CreateDirAll(path: Path) returns (r: Outcome<Error>)
      modifies this
      ensures Did(None) && Advances()
      ensures r.Pass? <==> !fails(old(ops))
      ensures r.Pass? ==> state == old(Found()).(dirs := old(Found()).dirs + Ancestors(path))
      ensures r.Fail? ==> state == old(Found()) && r.error == Io(path, Injected)
    {
      hide Chained, Merged, SameOwn;
      var failing := Begin();
      ghost var found := state;
      if failing {
        Log(old(state), found, None);
        return Fail(Io(path, Injected));
      }
      var n := |path|;
      state := state.(dirs := state.dirs + {path});
      assert path[..n] == path;
      while n > 0
        invariant 0 <= n <= |path| && ops == old(ops) + 1 && journal == old(journal) && commands == old(commands)
        invariant state == found.(dirs := found.dirs + set i | n <= i <= |path| :: path[..i])
      {
        n := n - 1;
        state := state.(dirs := state.dirs + {path[..n]});
      }
      Log(old(state), found, None);
      return Pass;
    }

    method RemoveFile(path: Path) returns (r: Outcome<Error>)
      modifies this
      ensures Did(if r.Pass? then Some(path) else None) && Advances()
      ensures r.Pass? <==> !fails(old(ops)) && path in old(Found()).files
      ensures r.Pass? ==>
        state == old(Found()).(files := old(Found()).files - {path}, executable := old(Found()).executable - {path})
      ensures r.Fail? ==> state == old(Found())
      ensures r.Fail? ==> r.error == Io(path, if fails(old(ops)) then Injected else NotFound)
    {
      hide Chained, Merged, SameOwn;
      var failing := Begin();
      ghost var found := state;
      if failing {
        Log(old(state), found, None);
        return Fail(Io(path, Injected));
      }
      if path !in state.files {
        Log(old(state), found, None);
        return Fail(Io(path, NotFound));
      }
      state := state.(files := state.files - {path}, executable := state.executable - {path});
      Log(old(state), found, Some(path));
      return Pass;
    }

    method SetExecutable(path: Path) returns (r: Outcome<Error>)
      modifies this
      ensures Did(if r.Pass? then Some(path) else None) && Advances()
      ensures r.Pass? <==> !fails(old(ops)) && path in old(Found()).files
      ensures r.Pass? ==> state == old(Found()).(executable := old(Found()).executable + {path})
      ensures r.Fail? ==> state == old(Found())
      ensures r.Fail? ==> r.error == Io(path, if fails(old(ops)) then Injected else NotFound)
    {
      hide Chained, Merged, SameOwn;
      var failing := Begin();
      ghost var found := state;
      if failing {
        Log(old(state), found, None);
        return Fail(Io(path, Injected));
      }
      if path !in state.files {
        Log(old(state), found, None);
        return Fail(Io(path, NotFound));
      }
      state := state.(executable := state.executable + {path});
      Log(old(state), found, Some(path));
      return Pass;
    }

    /** A host command. What it does to the host's files counts among the edits of others. */
    method RunCommand(step: StepKind, command: string) returns (r: Outcome<Error>)
      modifies this
      ensures Did(None) && Advances() && state == old(Found())
      ensures commands == old(commands) + [command]
      ensures r == if fails(old(ops)) then Fail(CommandFailed(step)) else Pass
    {
      hide Chained, Merged, SameOwn;
      var failing := Begin();
      Log(old(state), state, None);
      commands := commands + [command];
      r := if failing then Fail(CommandFailed(step)) else Pass;
    }

    /** `virsh define` of a definition with a fresh uuid: refused when the name is taken. */
    method DefineDomain(name: string) returns (r: Outcome<Error>)
      modifies this
      ensures Did(None) && Advances()
      ensures r == if fails(old(ops)) || name in old(Found()).domains then Fail(CommandFailed(VmRegister)) else Pass
      ensures state ==
        if r.Pass? then old(Found()).(domains := old(Found()).domains + {name}) else old(Found())
    {
      hide Chained, Merged, SameOwn;
      var failing := Begin();
      ghost var found := state;
      r := if failing || name in state.domains then Fail(CommandFailed(VmRegister)) else Pass;
      if r.Pass? {
        state := state.(domains := state.domains + {name});
      }
      Log(old(state), found, None);
    }

    /** The first half of `qemu-img create`: the image file appears. */
    method PlaceImage(path: Path, image: Contents) returns (r: Outcome<Error>)
      modifies this
      ensures Did(if r.Pass? then Some(path) else None) && Advances()
      ensures r == if fails(old(ops)) then Fail(CommandFailed(VmRegister)) else Pass
      ensures state ==
        if r.Pass? then old(Found()).(files := old(Found()).files[path := image]) else old(Found())
    {
      hide Chained, Merged, SameOwn;
      var failing := Begin();
      ghost var found := state;
      if failing {
        Log(old(state), found, None);
        return Fail(CommandFailed(VmRegister));
      }
      state := state.(files := state.files[path := image]);
      Log(old(state), found, Some(path));
      return Pass;
    }
  }
}
