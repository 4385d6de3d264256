/** Absolute paths as component sequences, and the flat backup names derived from them. */
module Paths {

  /** `["etc", "default", "grub"]` is `/etc/default/grub`; `[]` is `/`. */
  type Path = seq<string>

  predicate Under(root: Path, p: Path) {
    root <= p
  }

  lemma PrefixesCompare(a: Path, b: Path, p: Path)
    ensures Under(a, p) && Under(b, p) ==> Under(a, b) || Under(b, a)
  {
    if Under(a, p) && Under(b, p) {
      if |a| <= |b| {
        assert a == p[..|a|] == b[..|a|];
      } else {
        assert b == p[..|b|] == a[..|b|];
      }
    }
  }

  /** Every ancestor of `p`, `p` itself and the root directory included. */
  ghost function Ancestors(p: Path): set<Path> {
    set i | 0 <= i <= |p| :: p[..i]
  }

  lemma AncestorsAt(p: Path, i: nat)
    requires i <= |p|
    ensures p[..i] in Ancestors(p)
  {
  }

  /** The textual form the character-level code works on. */
  function Render(p: Path): string {
    if p == [] then "/" else RenderComponents(p)
  }

  function RenderComponents(p: Path): string {
    if p == [] then "" else "/" + p[0] + RenderComponents(p[1..])
  }

  function SanitizeChar(c: char): char {
    if c == '/' || c == ':' || c == '\\' then '_' else c
  }

  function SanitizeText(s: string): string {
    if s == "" then "" else [SanitizeChar(s[0])] + SanitizeText(s[1..])
  }

  function Sanitize(p: Path): string {
    SanitizeText(Render(p))
  }

  lemma SanitizeTextAppend(a: string, b: string)
    ensures SanitizeText(a + b) == SanitizeText(a) + SanitizeText(b)
  {
    if a == "" {
      assert a + b == b;
    } else {
      assert (a + b)[1..] == a[1..] + b;
      SanitizeTextAppend(a[1..], b);
    }
  }

  /** Separators, colons and backslashes become underscores, and every other character stays, in its place. */
  lemma SanitizeTextIs(s: string)
    ensures |SanitizeText(s)| == |s|
    ensures forall i | 0 <= i < |s| :: SanitizeText(s)[i] == if s[i] in ['/', ':', '\\'] then '_' else s[i]
  {
  }

  /** The flat name, built character by character. */
  method SanitizePath(p: Path) returns (out: string)
    ensures out == Sanitize(p)
  {
    var raw := Render(p);
    out := "";
    for i := 0 to |raw|
      invariant out == SanitizeText(raw[..i])
    {
      SanitizeTextAppend(raw[..i], [raw[i]]);
      assert raw[..i + 1] == raw[..i] + [raw[i]];
      assert SanitizeText([raw[i]]) == [SanitizeChar(raw[i])];
      match raw[i] {
        case '/' => out := out + "_";
        case ':' => out := out + "_";
        case '\\' => out := out + "_";
        case c => out := out + [c];
      }
    }
    assert raw[..|raw|] == raw;
  }

  /** Components that sanitizing can neither merge nor confuse. */
  predicate Clean(p: Path) {
    forall i | 0 <= i < |p| :: p[i] != "" && CleanText(p[i])
  }

  predicate CleanText(s: string) {
    forall k | 0 <= k < |s| :: s[k] !in "/:\\_"
  }

  lemma CleanTextIsFixed(s: string)
    requires CleanText(s)
    ensures SanitizeText(s) == s
  {
    if s != "" {
      assert s[0] !in "/:\\_";
      assert CleanText(s[1..]);
      CleanTextIsFixed(s[1..]);
    }
  }

  lemma SanitizeComponents(p: Path)
    requires Clean(p) && p != []
    ensures SanitizeText(RenderComponents(p)) == "_" + p[0] + SanitizeText(RenderComponents(p[1..]))
  {
    var rest := RenderComponents(p[1..]);
    assert RenderComponents(p) == "/" + (p[0] + rest);
    SanitizeTextAppend("/", p[0] + rest);
    SanitizeTextAppend(p[0], rest);
    CleanTextIsFixed(p[0]);
    assert SanitizeText("/") == "_";
  }

  /** Everything after the leading component is empty or starts at the next separator. */
  lemma SanitizedTail(p: Path)
    requires Clean(p)
    ensures var s := SanitizeText(RenderComponents(p)); s == "" <==> p == []
    ensures var s := SanitizeText(RenderComponents(p)); p != [] ==> s[0] == '_'
  {
    if p != [] {
      SanitizeComponents(p);
    }
  }

  lemma FirstComponentDetermined(a: string, b: string, s: string, t: string)
    requires CleanText(a) && CleanText(b)
    requires a + s == b + t
    requires s == "" || s[0] == '_'
    requires t == "" || t[0] == '_'
    ensures a == b && s == t
  {
    var all := a + s;
    assert s != "" ==> all[|a|] == '_';
    assert t != "" ==> all[|b|] == '_';
    assert forall k | 0 <= k < |b| :: all[k] == b[k];
    assert forall k | 0 <= k < |a| :: all[k] == a[k];
    if |a| < |b| {
      assert false;
    } else if |b| < |a| {
      assert false;
    }
    assert a == (a + s)[..|a|] == (b + t)[..|b|] == b;
    assert s == (a + s)[|a|..] == (b + t)[|b|..] == t;
  }

  lemma {:induction false} ComponentsInjective(p: Path, q: Path)
    requires Clean(p) && Clean(q)
    requires SanitizeText(RenderComponents(p)) == SanitizeText(RenderComponents(q))
    ensures p == q
  {
    SanitizedTail(p);
    SanitizedTail(q);
    if p != [] {
      SanitizeComponents(p);
      SanitizeComponents(q);
      var s := SanitizeText(RenderComponents(p[1..]));
      var t := SanitizeText(RenderComponents(q[1..]));
      assert "_" + p[0] + s == "_" + (p[0] + s);
      assert "_" + q[0] + t == "_" + (q[0] + t);
      assert p[0] + s == ("_" + (p[0] + s))[1..] == ("_" + (q[0] + t))[1..] == q[0] + t;
      SanitizedTail(p[1..]);
      SanitizedTail(q[1..]);
      FirstComponentDetermined(p[0], q[0], s, t);
      ComponentsInjective(p[1..], q[1..]);
    }
  }

  /** Distinct clean paths get distinct backup names. */
  lemma SanitizeInjective(p: Path, q: Path)
    requires Clean(p) && Clean(q)
    requires Sanitize(p) == Sanitize(q)
    ensures p == q
  {
    SanitizedTail(p);
    SanitizedTail(q);
    assert SanitizeText("/") == "_";
    if p != [] && q != [] {
      ComponentsInjective(p, q);
    } else if p != [] {
      SanitizeComponents(p);
    } else if q != [] {
      SanitizeComponents(q);
    }
  }

  /** `/a/b` and `/a_b` collide, so injectivity needs the exclusion of `_`. */
  lemma SanitizeCollides()
    ensures var p: Path, q: Path := ["a", "b"], ["a_b"]; p != q && Sanitize(p) == Sanitize(q) == "_a_b"
  {
    var p: Path, q: Path := ["a", "b"], ["a_b"];
    assert p[1..] == ["b"] && p[1..][1..] == [] && q[1..] == [];
    assert RenderComponents(["b"]) == "/b";
    assert Render(p) == "/a/b" && Render(q) == "/a_b";
    assert "/a/b" == "/" + "a" + "/" + "b";
    SanitizeTextAppend("/" + "a" + "/", "b");
    SanitizeTextAppend("/" + "a", "/");
    SanitizeTextAppend("/", "a");
    assert "/a_b" == "/" + "a_b";
    SanitizeTextAppend("/", "a_b");
    SanitizeTextAppend("a_", "b");
    SanitizeTextAppend("a", "_");
    assert "a_b" == "a" + "_" + "b";
  }

  lemma UnseparatedIsFixed(s: string)
    requires forall k | 0 <= k < |s| :: s[k] !in "/:\\"
    ensures SanitizeText(s) == s
  {
    if s != "" {
      assert s[0] !in "/:\\";
      UnseparatedIsFixed(s[1..]);
    }
  }

  lemma SanitizeOne(s: string)
    requires forall k | 0 <= k < |s| :: s[k] !in "/:\\"
    ensures Sanitize([s]) == "_" + s
  {
    UnseparatedIsFixed(s);
    assert RenderComponents([s]) == "/" + s + "" == "/" + s;
    SanitizeTextAppend("/", s);
    assert SanitizeText("/") == "_";
  }

  lemma SanitizeThree(a: string, b: string, c: string)
    requires Clean([a, b, c])
    ensures Sanitize([a, b, c]) == "_" + a + ("_" + b + ("_" + c))
  {
    hide SanitizeText;
    var p := [a, b, c];
    assert p[0] == a && p[1] == b && p[2] == c;
    assert p[1..] == [b, c] && [b, c][1..] == [c] && [c][1..] == [];
    assert forall i | 0 <= i < |[b, c]| :: [b, c][i] == p[i + 1];
    SanitizeComponents(p);
    SanitizeComponents([b, c]);
    SanitizeComponents([c]);
    assert SanitizeText(RenderComponents([])) == "" by {
      CleanTextIsFixed("");
    }
    assert "_" + c + "" == "_" + c;
  }

  /** `/a/b/c` and `/a_b_c` share their flat name, whatever clean components they are made of. */
  lemma JoinedCollides(a: string, b: string, c: string)
    requires Clean([a, b, c])
    ensures Sanitize([a, b, c]) == Sanitize([a + "_" + b + "_" + c])
  {
    hide Sanitize;
    var p, joined := [a, b, c], a + "_" + b + "_" + c;
    assert p[0] == a && p[1] == b && p[2] == c;
    SanitizeThree(a, b, c);
    SanitizeOne(joined);
    assert "_" + a + ("_" + b + ("_" + c)) == "_" + joined;
  }

  // ----- Virtu's own directories -----

  const FILES_SUBDIR := "files"
  const MANIFEST_FILENAME := "manifest.toml"
  const PENDING_FILENAME := "pending.toml"

  /** Where snapshots and the pending record live. */
  datatype Roots = Roots(snapshots: Path, state: Path) {
    predicate Apart() {
      !Under(snapshots, state) && !Under(state, snapshots)
    }

    function SnapshotDir(id: string): Path {
      snapshots + [id]
    }

    function ManifestPath(id: string): Path {
      snapshots + [id, MANIFEST_FILENAME]
    }

    function BackupPath(id: string, relative: Path): Path {
      SnapshotDir(id) + relative
    }

    function PendingPath(): Path {
      state + [PENDING_FILENAME]
    }

    /** Virtu's own bookkeeping, as opposed to the host's files. */
    predicate Protected(p: Path) {
      Under(snapshots, p) || Under(state, p)
    }

    predicate IsManifestPath(p: Path) {
      |p| == |snapshots| + 2 && Under(snapshots, p) && p[|p| - 1] == MANIFEST_FILENAME
    }
  }
}
