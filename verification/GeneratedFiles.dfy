/** The files Virtu generates from scratch, read back line by line. */
module GeneratedFiles {
  import opened Wrappers
  import opened Text
  import opened LineView
  import opened KernelParams
  import opened PhaseAEdits

  /** Lines with a terminator each. */
  function Terminated(lines: seq<string>): string {
    if lines == [] then "" else lines[0] + "\n" + Terminated(lines[1..])
  }

  lemma TerminatedAppend(a: seq<string>, b: seq<string>)
    ensures Terminated(a + b) == Terminated(a) + Terminated(b)
  {
    if a == [] {
      assert a + b == b;
    } else {
      assert (a + b)[1..] == a[1..] + b;
      TerminatedAppend(a[1..], b);
      var head, mid, tail := a[0] + "\n", Terminated(a[1..]), Terminated(b);
      assert head + (mid + tail) == (head + mid) + tail;
    }
  }

  lemma TerminatedJoin(lines: seq<string>)
    requires lines != []
    ensures Terminated(lines) == Join(lines, "\n") + "\n"
  {
    if |lines| > 1 {
      TerminatedJoin(lines[1..]);
      var head, rest := lines[0] + "\n", Join(lines[1..], "\n");
      assert head + (rest + "\n") == (head + rest) + "\n";
    } else {
      assert lines[1..] == [];
    }
  }

  lemma LinesOfTerminated(lines: seq<string>)
    requires AllUnbroken(lines)
    ensures Lines(Terminated(lines)) == lines
  {
    if lines == [] {
      LinesArePieces("");
    } else {
      TerminatedJoin(lines);
      LinesOfJoin(lines);
    }
  }

  lemma TerminatedOne(line: string)
    ensures Terminated([line]) == line + "\n"
  {
    assert [line][1..] == [];
  }

  // ----- the modprobe snippet -----

  const IDS_OPTION := "options vfio-pci ids="
  const DISABLE_VGA := "options vfio-pci disable_vga=1"

  function Softdep(driver: string): string {
    "softdep " + driver + " pre: vfio-pci"
  }

  function Softdeps(drivers: seq<string>): seq<string> {
    if drivers == [] then [] else [Softdep(drivers[0])] + Softdeps(drivers[1..])
  }

  lemma SoftdepsAre(drivers: seq<string>)
    ensures SoftdepLines(drivers) == Terminated(Softdeps(drivers))
    ensures forall l :: l in Softdeps(drivers) <==> exists d :: d in drivers && l == Softdep(d)
  {
    if drivers != [] {
      var d, rest := drivers[0], drivers[1..];
      SoftdepsAre(rest);
      assert Softdeps(drivers)[1..] == Softdeps(rest);
      assert "softdep " + d + " pre: vfio-pci\n" == Softdep(d) + "\n";
      assert drivers == [d] + rest;
    }
  }

  lemma BannerIs()
    ensures FILE_BANNER == Terminated([BANNER_FIRST, BANNER_SECOND])
  {
    TwoLines(BANNER_FIRST, BANNER_SECOND);
  }

  lemma TwoLines(a: string, b: string)
    ensures Terminated([a, b]) == a + "\n" + (b + "\n")
  {
    TerminatedOne(a);
    TerminatedOne(b);
    assert [a, b] == [a] + [b];
    TerminatedAppend([a], [b]);
  }

  lemma PiecesUnbroken(a: string, b: string, c: string)
    requires Unbroken(a) && Unbroken(b) && Unbroken(c)
    ensures Unbroken(a + b + c) && (a != "" ==> (a + b + c)[0] == a[0])
  {
  }

  lemma FirstPieces(a: string, b: string, c: string)
    requires a == "# Managed by Virtu " && b == "(https://github.com/" && c == "H-Sami/Virtu)."
    ensures Unbroken(a) && Unbroken(b) && Unbroken(c) && a[0] == '#'
  {
  }

  lemma SecondPieces(a: string, b: string, c: string)
    requires a == "# Edit through `virtu` " && b == "so the snapshot manifest " && c == "stays consistent."
    ensures Unbroken(a) && Unbroken(b) && Unbroken(c) && a[0] == '#'
  {
  }

  lemma BannerUnbroken()
    ensures Unbroken(BANNER_FIRST) && Unbroken(BANNER_SECOND) && BANNER_FIRST[0] == '#' && BANNER_SECOND[0] == '#'
  {
    hide Unbroken;
    FirstPieces("# Managed by Virtu ", "(https://github.com/", "H-Sami/Virtu).");
    PiecesUnbroken("# Managed by Virtu ", "(https://github.com/", "H-Sami/Virtu).");
    SecondPieces("# Edit through `virtu` ", "so the snapshot manifest ", "stays consistent.");
    PiecesUnbroken("# Edit through `virtu` ", "so the snapshot manifest ", "stays consistent.");
  }

  lemma OptionUnbroken(prefix: string, disable: string)
    requires prefix == IDS_OPTION && disable == DISABLE_VGA
    ensures Unbroken(prefix) && Unbroken(disable) && !(prefix <= disable) && |prefix| == 21 && prefix[0] == 'o'
  {
    assert prefix[17] == 'i' && disable[17] == 'd';
  }

  lemma SoftdepUnbroken(before: string, after: string, driver: string)
    requires before == "softdep " && after == " pre: vfio-pci" && Unbroken(driver)
    ensures Unbroken(before + driver + after) && (before + driver + after)[0] == 's'
  {
  }

  lemma DriversUnbroken(drivers: seq<string>)
    requires drivers == ["nvidia", "nvidia_drm", "nouveau", "amdgpu", "radeon", "i915"]
    ensures forall d | d in drivers :: Unbroken(d)
  {
  }

  lemma IdsUnbroken(ids: seq<string>)
    requires AllVendorDeviceIds(ids)
    ensures Unbroken(Join(ids, ","))
    ensures forall i | 0 <= i < |ids| :: ',' !in ids[i]
  {
    PlainJoin(ids);
    var s := Join(ids, ",");
    assert forall k | 0 <= k < |s| :: PlainChar(s[k]);
    forall i | 0 <= i < |ids| ensures ',' !in ids[i] {
      assert forall k | 0 <= k < |ids[i]| :: ids[i][k] != ',';
    }
  }

  /** The snippet, line by line. */
  function SnippetLines(ids: seq<string>): seq<string> {
    [BANNER_FIRST, BANNER_SECOND] + (["", IDS_OPTION + Join(ids, ","), DISABLE_VGA, ""] + Softdeps(SOFTDEPS))
  }

  lemma SnippetText(ids: seq<string>)
    requires ids != [] && AllVendorDeviceIds(ids)
    ensures VfioModprobeConf(ids) == Success(Terminated(SnippetLines(ids)))
  {
    hide Join, SoftdepLines, Softdeps, FILE_BANNER, Terminated, SOFTDEPS, BANNER_FIRST, BANNER_SECOND;
    var option := IDS_OPTION + Join(ids, ",");
    var middle := ["", option, DISABLE_VGA, ""];
    assert FirstInvalid(ids) == |ids|;
    BannerIs();
    SoftdepsAre(SOFTDEPS);
    TerminatedAppend([BANNER_FIRST, BANNER_SECOND], middle + Softdeps(SOFTDEPS));
    TerminatedAppend(middle, Softdeps(SOFTDEPS));
    FourLines("", option, DISABLE_VGA, "");
    SnippetParts(FILE_BANNER, IDS_OPTION, Join(ids, ","), SoftdepLines(SOFTDEPS));
  }

  lemma SnippetParts(banner: string, prefix: string, list: string, rest: string)
    ensures banner + "\n" + prefix + list + "\n" + "options vfio-pci disable_vga=1\n\n" + rest ==
      banner + ((("" + "\n") + (prefix + list + "\n") + (DISABLE_VGA + "\n") + ("" + "\n")) + rest)
  {
    assert "options vfio-pci disable_vga=1\n\n" == DISABLE_VGA + "\n" + ("" + "\n");
  }

  lemma FourLines(a: string, b: string, c: string, d: string)
    ensures Terminated([a, b, c, d]) == (a + "\n") + (b + "\n") + (c + "\n") + (d + "\n")
  {
    TerminatedOne(a);
    TerminatedOne(b);
    TerminatedOne(c);
    TerminatedOne(d);
    assert [a, b, c, d] == [a] + ([b] + ([c] + [d]));
    TerminatedAppend([a], [b] + ([c] + [d]));
    TerminatedAppend([b], [c] + [d]);
    TerminatedAppend([c], [d]);
  }

  lemma SnippetUnbroken(ids: seq<string>)
    requires AllVendorDeviceIds(ids)
    ensures AllUnbroken(SnippetLines(ids))
  {
    hide Unbroken, Join, Softdeps, SOFTDEPS, BANNER_FIRST, BANNER_SECOND;
    BannerUnbroken();
    OptionUnbroken(IDS_OPTION, DISABLE_VGA);
    IdsUnbroken(ids);
    EmptyUnbroken();
    PiecesUnbroken("", IDS_OPTION, Join(ids, ","));
    assert "" + IDS_OPTION + Join(ids, ",") == IDS_OPTION + Join(ids, ",");
    DriversAre(SOFTDEPS);
    SoftdepsUnbroken(SOFTDEPS);
  }

  lemma EmptyUnbroken()
    ensures Unbroken("")
  {
  }

  lemma SoftdepsUnbroken(drivers: seq<string>)
    requires forall d | d in drivers :: Unbroken(d)
    ensures forall l | l in Softdeps(drivers) :: Unbroken(l) && l != "" && l[0] == 's'
  {
    hide Unbroken;
    SoftdepsAre(drivers);
    forall l | l in Softdeps(drivers) ensures Unbroken(l) && l != "" && l[0] == 's' {
      var d :| d in drivers && l == Softdep(d);
      SoftdepUnbroken("softdep ", " pre: vfio-pci", d);
    }
  }

  /** A line of the snippet that is not the one with the ids: a comment, a blank, or an instruction of its own. */
  ghost predicate OtherLine(line: string) {
    || line == "" || line[0] == '#'
    || line == "options vfio-pci disable_vga=1"
    || exists d :: d in ["nvidia", "nvidia_drm", "nouveau", "amdgpu", "radeon", "i915"]
         && line == "softdep " + d + " pre: vfio-pci"
  }

  /** Line `at` gives vfio-pci these ids, every driver waits for it, and the rest are other lines. */
  ghost predicate SnippetAt(ids: seq<string>, text: string, at: nat) {
    var lines, prefix := Lines(text), "options vfio-pci ids=";
    && at < |lines| && prefix <= lines[at] && Split(lines[at][|prefix|..], ',') == ids
    && (forall i | 0 <= i < |lines| && i != at :: !(prefix <= lines[i]) && OtherLine(lines[i]))
    && "options vfio-pci disable_vga=1" in lines
    && forall d | d in ["nvidia", "nvidia_drm", "nouveau", "amdgpu", "radeon", "i915"] ::
         "softdep " + d + " pre: vfio-pci" in lines
  }

  /**
   * The modprobe snippet, read back: one line gives vfio-pci its ids, separated by commas, and they
   * are the ids asked for; vfio-pci comes before each of the six graphics drivers; and there is
   * nothing else in it but the VGA option, comments and blank lines.
   */
  lemma SnippetReadBack(ids: seq<string>, text: string) returns (at: nat)
    requires VfioModprobeConf(ids) == Success(text)
    ensures SnippetAt(ids, text, at)
  {
    hide Join, Softdeps, SOFTDEPS, BANNER_FIRST, BANNER_SECOND, Split, Lines, Terminated, Unbroken, VfioModprobeConf;
    hide OtherLine, SnippetLines;
    var lines := SnippetLines(ids);
    assert ids != [] && AllVendorDeviceIds(ids);
    SnippetText(ids);
    SnippetUnbroken(ids);
    LinesOfTerminated(lines);
    IdsUnbroken(ids);
    SplitJoin(ids, ',');
    at := 3;
    SnippetIdsLine(ids);
    SnippetOthers(ids);
    DriversAre(SOFTDEPS);
    forall d | d in SOFTDEPS ensures "softdep " + d + " pre: vfio-pci" in lines {
      SnippetHasDriver(ids, d);
    }
  }

  lemma SnippetIdsLine(ids: seq<string>)
    ensures var lines, prefix := SnippetLines(ids), "options vfio-pci ids=";
      |lines| >= 6 && lines[3] == prefix + Join(ids, ",") && lines[4] == "options vfio-pci disable_vga=1"
  {
    hide Join, Softdeps, SOFTDEPS, BANNER_FIRST, BANNER_SECOND;
  }

  lemma SnippetOthers(ids: seq<string>)
    ensures forall i | 0 <= i < |SnippetLines(ids)| && i != 3 ::
      !("options vfio-pci ids=" <= SnippetLines(ids)[i]) && OtherLine(SnippetLines(ids)[i])
  {
    hide Join, Softdeps, SOFTDEPS, BANNER_FIRST, BANNER_SECOND, Unbroken;
    var lines, deps := SnippetLines(ids), Softdeps(SOFTDEPS);
    BannerUnbroken();
    OptionUnbroken(IDS_OPTION, DISABLE_VGA);
    DriversAre(SOFTDEPS);
    SoftdepsAre(SOFTDEPS);
    SoftdepsUnbroken(SOFTDEPS);
    forall i | 0 <= i < |lines| && i != 3 ensures !(IDS_OPTION <= lines[i]) && OtherLine(lines[i]) {
      if i >= 6 {
        assert lines[i] == deps[i - 6] && deps[i - 6] in deps;
      }
    }
  }

  lemma SnippetHasDriver(ids: seq<string>, d: string)
    requires d in SOFTDEPS
    ensures "softdep " + d + " pre: vfio-pci" in SnippetLines(ids)
  {
    hide Join, Softdeps, SOFTDEPS, BANNER_FIRST, BANNER_SECOND;
    var lines, deps := SnippetLines(ids), Softdeps(SOFTDEPS);
    SoftdepsAre(SOFTDEPS);
    assert Softdep(d) in deps;
    var k :| 0 <= k < |deps| && deps[k] == Softdep(d);
    assert lines[6 + k] == deps[k];
  }

  lemma DriversAre(drivers: seq<string>)
    requires drivers == SOFTDEPS
    ensures drivers == ["nvidia", "nvidia_drm", "nouveau", "amdgpu", "radeon", "i915"]
    ensures forall d | d in drivers :: Unbroken(d)
  {
    DriversUnbroken(drivers);
  }

  // ----- the dracut snippet -----

  /** Line `at` adds drivers, and its words are the VFIO modules; the rest are comments or blank. */
  ghost predicate DracutAt(text: string, at: nat) {
    var lines, prefix := Lines(text), "add_drivers+=\"";
    && at < |lines| && prefix <= lines[at] && EndsWith(lines[at], '"') && |prefix| < |lines[at]|
    && Tokens(lines[at][|prefix|..|lines[at]| - 1]) == ["vfio_pci", "vfio", "vfio_iommu_type1"]
    && forall i | 0 <= i < |lines| && i != at :: lines[i] == "" || lines[i][0] == '#'
  }

  /** The dracut snippet, read back: one line adds drivers, and its words are the VFIO modules. */
  lemma DracutReadBack() returns (at: nat)
    ensures DracutAt(DracutConf(), at)
  {
    hide Lines, Terminated, Unbroken, Tokens, Join, BANNER_FIRST, BANNER_SECOND;
    var a, b, c := "vfio_pci", "vfio", "vfio_iommu_type1";
    var prefix, words := "add_drivers+=\"", " " + (a + " " + b + " " + c) + " ";
    var line := prefix + words + "\"";
    var lines := [BANNER_FIRST, BANNER_SECOND, "", line];
    ModulesJoined(a, b, c);
    FourLines(BANNER_FIRST, BANNER_SECOND, "", line);
    BannerIs();
    TwoLines(BANNER_FIRST, BANNER_SECOND);
    DracutText(FILE_BANNER, prefix, a + " " + b + " " + c);
    BannerUnbroken();
    EmptyUnbroken();
    DracutLine(prefix, a, b, c);
    assert AllUnbroken(lines);
    LinesOfTerminated(lines);
    SpacedWords(a, b, c);
    at := 3;
    assert line[|prefix|..|line| - 1] == words;
  }

  lemma ModulesJoined(a: string, b: string, c: string)
    requires a == "vfio_pci" && b == "vfio" && c == "vfio_iommu_type1"
    ensures Join(VFIO_MODULES, " ") == a + " " + b + " " + c && Word(a) && Word(b) && Word(c)
  {
    assert VFIO_MODULES == [a, b, c];
    assert [a, b, c][1..] == [b, c] && [b, c][1..] == [c];
    assert a + " " + (b + " " + c) == a + " " + b + " " + c;
  }

  lemma DracutText(banner: string, prefix: string, modules: string)
    requires prefix == "add_drivers+=\""
    ensures banner + "\n" + "add_drivers+=\" " + modules + " \"\n" ==
      banner + ("" + "\n") + (prefix + (" " + modules + " ") + "\"" + "\n")
  {
    assert "add_drivers+=\" " == prefix + " " && " \"\n" == " " + "\"" + "\n";
  }

  lemma DracutLine(prefix: string, a: string, b: string, c: string)
    requires prefix == "add_drivers+=\"" && Word(a) && Word(b) && Word(c)
    ensures Unbroken(prefix + (" " + (a + " " + b + " " + c) + " ") + "\"") && prefix[0] == 'a'
  {
    assert forall s: string | Word(s) :: Unbroken(s) by {
      forall s: string | Word(s) ensures Unbroken(s) {
        assert IsSpace('\n') && IsSpace('\r');
      }
    }
  }

  lemma SpacedWords(a: string, b: string, c: string)
    requires Word(a) && Word(b) && Word(c)
    ensures Tokens(" " + (a + " " + b + " " + c) + " ") == [a, b, c]
  {
    hide Tokens, IsSpace;
    var third, second := c + " ", b + (" " + (c + " "));
    NoTokens();
    TokensAfterSpace("");
    assert " " + "" == " ";
    TokensOfWord(c, " ");
    TokensAfterSpace(third);
    TokensOfWord(b, " " + third);
    TokensAfterSpace(second);
    TokensOfWord(a, " " + second);
    TokensAfterSpace(a + (" " + second));
    assert " " + (a + " " + b + " " + c) + " " == " " + (a + (" " + second));
  }
}
