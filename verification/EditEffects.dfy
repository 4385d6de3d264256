/** What the edits of Phase A leave in their files, as the boot loader, dracut, modprobe and the rest read them. */
module EditEffects {
  import opened Wrappers
  import opened Records
  import opened Store
  import opened KernelParams
  import opened LineView
  import opened LineRewriter
  import opened LineSyntax
  import opened GeneratedFiles
  import opened PhaseAEdits
  import opened Readiness
  import GrubWriter = Grub
  import UpdateInitramfsWriter = UpdateInitramfs
  import Text

  // ----- the parameters -----

  /** Words that tell the kernel to do what passthrough needs, for the devices passed through. */
  ghost predicate AsksForAll(words: seq<string>, host: SystemProfile, config: PassthroughConfig) {
    && IommuParam(host.cpuVendor) in words
    && "iommu=pt" in words
    && forall ids | IdsToPass(host, config, ids) && ids != [] :: "vfio-pci.ids=" + Text.Join(ids, ",") in words
  }

  lemma HostParamsAskForAll(host: SystemProfile, config: PassthroughConfig)
    ensures AsksForAll(HostParams(host, config), host, config)
    ensures IdsToPass(host, config, CanonicalIds(config.gpuRoles, host.gpus))
  {
    hide CanonicalIds, PassesThrough, CpuParam, NamesAmd, Text.Join;
    CpuParamByVendor(host.cpuVendor);
    PassthroughIdsAre(config.gpuRoles, host.gpus);
    forall ids | IdsToPass(host, config, ids) ensures ids == CanonicalIds(config.gpuRoles, host.gpus) {
      SameIdList(ids, CanonicalIds(config.gpuRoles, host.gpus));
    }
  }

  // ----- systemd-boot -----

  /** The entry has one `options` line, and these are its words. */
  ghost predicate OptionsAre(text: string, words: seq<string>) {
    exists t, lead :: OptionsAt(text, words, t, lead)
  }

  ghost predicate OptionsAt(text: string, words: seq<string>, t: nat, lead: string) {
    var lines := Text.Lines(text);
    && t < |lines| && Blank(lead) && Text.Words(words) && lines[t] == lead + "options " + Text.Join(words, " ")
    && forall i, before, rest | 0 <= i < |lines| && i != t :: !IsOptions(lines[i], before, rest)
  }

  /** One pass over an entry: the words asked for are on its one `options` line. */
  lemma SystemdEffect(params: seq<string>, x: string, y: string) returns (words: seq<string>)
    requires CleanDialect(Dialect.SystemdBoot(params)) && Text.NoCr(x)
    requires Rewrite(Dialect.SystemdBoot(params), x) == Success(y)
    ensures OptionsAre(y, words) && forall p | p in params :: p in words
  {
    hide IsTarget, Edit, Extra, ViewOf, Steady, CleanDialect, Rewrite, Text.Lines, Text.Join, AddMissing;
    hide IsOptions, Text.Tokens;
    var d, lines := Dialect.SystemdBoot(params), Text.Lines(x);
    var t := FirstTarget(d, lines);
    AcceptedFile(d, x);
    ghost var lead;
    if t < |lines| {
      AfterFirstPass(d, x, t);
      var rest;
      lead, rest := TargetParts(params, lines[t]);
      OptionsEdit(params, lines[t], lead, rest);
      words := AddMissing(Text.Tokens(rest), params);
      AddMissingMembers(Text.Tokens(rest), params);
      WordsOf(rest, params);
      FirstOnly(d, y, t);
    } else {
      GrubWriter.AppendMeaning(d, x);
      words := params;
      lead := "";
      AppendedOptions(params);
    }
    assert Text.Lines(y)[t] == lead + "options " + Text.Join(words, " ");
    forall i, before, rest | 0 <= i < |Text.Lines(y)| && i != t ensures !IsOptions(Text.Lines(y)[i], before, rest) {
      if IsOptions(Text.Lines(y)[i], before, rest) {
        OptionsIsTarget(params, Text.Lines(y)[i], before, rest);
      }
    }
    assert OptionsAt(y, words, t, lead);
  }

  lemma FirstOnly(d: Dialect, y: string, t: nat)
    requires FirstTarget(d, Text.Lines(y)) == t && t < |Text.Lines(y)|
    ensures IsTarget(d, Text.Lines(y)[t])
  {
  }

  lemma TargetParts(params: seq<string>, line: string) returns (lead: string, rest: string)
    requires IsTarget(Dialect.SystemdBoot(params), line)
    ensures IsOptions(line, lead, rest)
  {
    hide IsTarget, IsOptions;
    SystemdTargetIs(params, line);
    lead, rest :| IsOptions(line, lead, rest);
  }

  lemma OptionsEdit(params: seq<string>, line: string, lead: string, rest: string)
    requires IsOptions(line, lead, rest)
    ensures Blank(lead)
    ensures Edit(Dialect.SystemdBoot(params), line) ==
      Some(lead + "options " + Text.Join(AddMissing(Text.Tokens(rest), params), " "))
  {
    hide Edit, Text.Join, AddMissing, Text.Tokens;
    SystemdEdit(lead, rest, params);
  }

  lemma WordsOf(rest: string, params: seq<string>)
    requires CleanDialect(Dialect.SystemdBoot(params))
    ensures Text.Words(AddMissing(Text.Tokens(rest), params))
  {
    hide Text.Tokens, AddMissing;
    Text.TokensAreWords(rest);
    WantedAreWords(Dialect.SystemdBoot(params));
    AddMissingMembers(Text.Tokens(rest), params);
    var all := AddMissing(Text.Tokens(rest), params);
    assert forall i | 0 <= i < |all| :: all[i] in all;
    assert forall w | w in params :: Text.Word(w);
  }

  lemma AppendedOptions(params: seq<string>)
    requires CleanDialect(Dialect.SystemdBoot(params))
    ensures Extra(Dialect.SystemdBoot(params)) == "" + "options " + Text.Join(params, " ") && Text.Words(params)
  {
    hide Text.Join;
    WantedAreWords(Dialect.SystemdBoot(params));
  }
  // ----- GRUB -----

  /**
   * One line of the file assigns the variable, the text of the assignment being these words evenly
   * spaced, in quotes of one kind, which may be followed by more, or in none.
   */
  ghost predicate AssignsWords(text: string, name: string, words: seq<string>) {
    exists t, lead, trail, quote, rest :: AssignmentAt(text, name, words, t, lead, trail, quote, rest)
  }

  ghost predicate AssignmentAt(
    text: string, name: string, words: seq<string>, t: nat, lead: string, trail: string, quote: string, rest: string)
  {
    var lines := Text.Lines(text);
    && t < |lines| && Blank(lead) && Blank(trail) && quote in ["", "\"", "'"] && (quote == "" ==> rest == "")
    && lines[t] == lead + name + trail + "=" + (quote + Text.Join(words, " ") + (quote + rest))
    && forall i, a, b, value | 0 <= i < |lines| && i != t :: !IsAssignment(lines[i], name, a, b, value)
  }

  ghost predicate IsAssignment(line: string, name: string, lead: string, trail: string, value: string) {
    Blank(lead) && Blank(trail) && line == lead + name + trail + "=" + value
  }

  /** One pass over the GRUB file: the parameters are among the words assigned. */
  lemma GrubEffect(params: seq<string>, x: string, y: string, name: string) returns (words: seq<string>)
    requires CleanDialect(Dialect.Grub(params)) && Text.NoCr(x) && name == "GRUB_CMDLINE_LINUX_DEFAULT"
    requires Rewrite(Dialect.Grub(params), x) == Success(y)
    ensures AssignsWords(y, name, words) && forall p | p in params :: p in words
  {
    hide IsTarget, Edit, Extra, ViewOf, Steady, CleanDialect, Rewrite, Text.Lines, Text.Join, AddMissing;
    hide IsAssignment, Text.Tokens, Blank;
    var d, lines := Dialect.Grub(params), Text.Lines(x);
    var t := FirstTarget(d, lines);
    AcceptedFile(d, x);
    ghost var lead, trail, quote, rest;
    if t < |lines| {
      AfterFirstPass(d, x, t);
      lead, trail, quote, rest, words := AssignmentEdit(params, lines[t], name);
      FirstOnly(d, y, t);
    } else {
      GrubWriter.AppendMeaning(d, x);
      words := params;
      lead, trail, quote, rest := "", "", "\"", "";
      AppendedAssignment(params, name);
      NothingIsBlank();
    }
    forall i, a, b, value | 0 <= i < |Text.Lines(y)| && i != t
      ensures !IsAssignment(Text.Lines(y)[i], name, a, b, value)
    {
      if IsAssignment(Text.Lines(y)[i], name, a, b, value) {
        AssignmentIsTarget(params, Text.Lines(y)[i], name, a, b, value);
      }
    }
    assert AssignmentAt(y, name, words, t, lead, trail, quote, rest);
  }

  lemma NothingIsBlank()
    ensures Blank("")
  {
  }

  lemma AssignmentIsTarget(params: seq<string>, line: string, name: string, lead: string, trail: string, value: string)
    requires name == "GRUB_CMDLINE_LINUX_DEFAULT" && IsAssignment(line, name, lead, trail, value)
    ensures IsTarget(Dialect.Grub(params), line)
  {
    hide IsTarget;
    GrubTargetIs(params, line, name);
  }

  lemma AssignmentEdit(params: seq<string>, line: string, name: string)
    returns (lead: string, trail: string, quote: string, rest: string, words: seq<string>)
    requires name == "GRUB_CMDLINE_LINUX_DEFAULT"
    requires IsTarget(Dialect.Grub(params), line) && Edit(Dialect.Grub(params), line).Some?
    ensures Blank(lead) && Blank(trail) && quote in ["", "\"", "'"] && (quote == "" ==> rest == "")
    ensures Edit(Dialect.Grub(params), line).value ==
      lead + name + trail + "=" + (quote + Text.Join(words, " ") + (quote + rest))
    ensures forall p | p in params :: p in words
  {
    hide IsTarget, Edit, Text.Join, AddMissing, Text.Tokens;
    GrubTargetIs(params, line, name);
    var value;
    lead, trail, value :| Blank(lead) && Blank(trail) && line == lead + name + trail + "=" + value;
    var key := lead + name + trail;
    KeyHasNoSign(lead, name, trail);
    if value == "" || !IsQuote(value[0]) {
      GrubEditUnquoted(key, value, params);
      quote, rest, words := "", "", AddMissing(Text.Tokens(value), params);
      AddMissingMembers(Text.Tokens(value), params);
      NoQuotes(Text.Join(words, " "));
    } else {
      var c, after := value[0], value[1..];
      var at := Text.Find(after, c);
      assert value == [c] + after;
      if at == |after| {
        GrubEditUnclosed(key, c, after, params);
        assert false;
      } else {
        var inner := after[..at];
        rest := after[at + 1..];
        assert value == [c] + inner + ([c] + rest);
        GrubEditQuoted(key, c, inner, rest, params);
        quote, words := [c], AddMissing(Text.Tokens(inner), params);
        AddMissingMembers(Text.Tokens(inner), params);
        QuoteIs(c);
      }
    }
  }

  lemma QuoteIs(c: char)
    requires IsQuote(c)
    ensures [c] in ["", "\"", "'"] && [c] != ""
  {
  }

  lemma NoQuotes(s: string)
    ensures "" + s + ("" + "") == s
  {
  }

  lemma KeyHasNoSign(lead: string, name: string, trail: string)
    requires Blank(lead) && Blank(trail) && name == "GRUB_CMDLINE_LINUX_DEFAULT"
    ensures '=' !in lead + name + trail
  {
    BlankHasNoEquals(lead);
    BlankHasNoEquals(trail);
    NameEnds(name);
    TargetVarFacts();
  }

  lemma AppendedAssignment(params: seq<string>, name: string)
    requires name == "GRUB_CMDLINE_LINUX_DEFAULT"
    ensures Extra(Dialect.Grub(params)) ==
      "" + name + "" + "=" + ("\"" + Text.Join(params, " ") + ("\"" + ""))
  {
    hide Text.Join;
    NameEnds(name);
    var list := Text.Join(params, " ");
    assert name + "=\"" + list + "\"" == "" + name + "" + "=" + ("\"" + list + ("\"" + ""));
  }

  // ----- mkinitcpio -----

  ghost predicate IsModules(line: string, lead: string, value: string) {
    Blank(lead) && line == lead + "MODULES=" + value
  }

  /** The file has one `MODULES` array, and these are its words. */
  ghost predicate ModulesAre(text: string, words: seq<string>) {
    exists t, lead :: ModulesAt(text, words, t, lead)
  }

  ghost predicate ModulesAt(text: string, words: seq<string>, t: nat, lead: string) {
    var lines := Text.Lines(text);
    && t < |lines| && Blank(lead) && Text.Words(words)
    && lines[t] == lead + "MODULES=" + ("(" + Text.Join(words, " ") + ")")
    && forall i, before, value | 0 <= i < |lines| && i != t :: !IsModules(lines[i], before, value)
  }

  /** One pass over a file: the three modules are in its one array. */
  lemma MkinitcpioEffect(x: string, y: string) returns (words: seq<string>)
    requires Text.NoCr(x) && Rewrite(Dialect.Mkinitcpio, x) == Success(y)
    ensures ModulesAre(y, words) && forall m | m in ["vfio_pci", "vfio", "vfio_iommu_type1"] :: m in words
  {
    hide IsTarget, Edit, Extra, ViewOf, Steady, CleanDialect, Rewrite, Text.Lines, Text.Join, AddMissing;
    hide IsModules, Text.Tokens;
    var d, lines := Dialect.Mkinitcpio, Text.Lines(x);
    var t := FirstTarget(d, lines);
    MkinitcpioIsClean();
    AcceptedFile(d, x);
    ghost var lead;
    if t < |lines| {
      AfterFirstPass(d, x, t);
      lead, words := ArrayEdit(lines[t]);
      FirstOnly(d, y, t);
    } else {
      GrubWriter.AppendMeaning(d, x);
      words := VFIO_MODULES;
      lead := "";
      AppendedArray();
    }
    forall i, before, value | 0 <= i < |Text.Lines(y)| && i != t ensures !IsModules(Text.Lines(y)[i], before, value) {
      if IsModules(Text.Lines(y)[i], before, value) {
        ModulesIsTarget(Text.Lines(y)[i], before, value);
      }
    }
    assert ModulesAt(y, words, t, lead);
  }

  lemma MkinitcpioIsClean()
    ensures CleanDialect(Dialect.Mkinitcpio) && VFIO_MODULES == ["vfio_pci", "vfio", "vfio_iommu_type1"]
  {
    ModuleIsClean("vfio_pci");
    ModuleIsClean("vfio");
    ModuleIsClean("vfio_iommu_type1");
  }

  lemma ModuleIsClean(s: string)
    requires s != "" && forall k | 0 <= k < |s| :: '0' <= s[k] <= 'z'
    ensures CleanParam(s)
  {
  }

  lemma ModulesIsTarget(line: string, lead: string, value: string)
    requires IsModules(line, lead, value)
    ensures IsTarget(Dialect.Mkinitcpio, line)
  {
    hide IsTarget;
    MkinitcpioTargetIs(line);
  }

  lemma ArrayEdit(line: string) returns (lead: string, words: seq<string>)
    requires IsTarget(Dialect.Mkinitcpio, line) && Edit(Dialect.Mkinitcpio, line).Some?
    ensures Blank(lead) && Text.Words(words)
    ensures Edit(Dialect.Mkinitcpio, line).value == lead + "MODULES=" + ("(" + Text.Join(words, " ") + ")")
    ensures forall m | m in ["vfio_pci", "vfio", "vfio_iommu_type1"] :: m in words
  {
    hide IsTarget, Edit, Text.Join, AddMissing, Text.Tokens, Text.Words;
    MkinitcpioTargetIs(line);
    var value;
    lead, value :| Blank(lead) && line == lead + "MODULES=" + value;
    var key := lead + "MODULES";
    BlankHasNoEquals(lead);
    assert line == key + "=" + value;
    var before, inner, trail := MkinitcpioEditAccepts(key, value);
    MkinitcpioEdit(key, before, inner, trail);
    words := AddMissing(Text.Tokens(inner), ["vfio_pci", "vfio", "vfio_iommu_type1"]);
    AddMissingMembers(Text.Tokens(inner), ["vfio_pci", "vfio", "vfio_iommu_type1"]);
    var list := Text.Join(words, " ");
    assert key + "=(" + list + ")" == lead + "MODULES=" + ("(" + list + ")");
    WordsAndModules(inner, ["vfio_pci", "vfio", "vfio_iommu_type1"]);
  }

  lemma WordsAndModules(inner: string, modules: seq<string>)
    requires modules == VFIO_MODULES
    ensures Text.Words(AddMissing(Text.Tokens(inner), modules))
  {
    hide Text.Tokens, AddMissing;
    MkinitcpioIsClean();
    Text.TokensAreWords(inner);
    AddMissingMembers(Text.Tokens(inner), modules);
    var all := AddMissing(Text.Tokens(inner), modules);
    assert forall i | 0 <= i < |all| :: all[i] in all;
    assert forall w | w in modules :: Text.Word(w);
  }

  lemma AppendedArray()
    ensures Extra(Dialect.Mkinitcpio) == "" + "MODULES=" + ("(" + Text.Join(VFIO_MODULES, " ") + ")")
    ensures Text.Words(VFIO_MODULES)
  {
    hide Text.Join;
    MkinitcpioIsClean();
    var list := Text.Join(VFIO_MODULES, " ");
    assert "MODULES=(" + list + ")" == "" + "MODULES=" + ("(" + list + ")");
  }

  // ----- update-initramfs -----

  /** The line's first word is `m`, and it is no comment. */
  ghost predicate NamesModule(line: string, m: string) {
    Text.Word(m) && m[0] != '#' && exists lead, rest :: NamedIn(line, m, lead, rest)
  }

  ghost predicate NamedIn(line: string, m: string, lead: string, rest: string) {
    Blank(lead) && line == lead + m + rest && (rest == "" || Text.IsSpace(rest[0]))
  }

  lemma ModuleOfIs(line: string, m: string)
    ensures UpdateInitramfsWriter.ModuleOf(line) == Some(m) <==> NamesModule(line, m)
  {
    if UpdateInitramfsWriter.ModuleOf(line) == Some(m) {
      ModuleIsNamed(line, m);
    }
    if NamesModule(line, m) {
      var lead, rest :| NamedIn(line, m, lead, rest);
      NamedIsModule(line, m, lead, rest);
    }
  }

  lemma ModuleIsNamed(line: string, m: string)
    requires UpdateInitramfsWriter.ModuleOf(line) == Some(m)
    ensures NamesModule(line, m)
  {
    hide Text.IsSpace, Text.Trim, Text.WordLength, Text.Tokens;
    var lead, trail := TrimParts(line);
    var core := Text.Trim(line);
    TrimmedStart(line);
    var n := Text.WordLength(core);
    FirstToken(core);
    var rest := core[n..] + trail;
    assert core == m + core[n..];
    assert line == lead + m + rest;
    assert NamedIn(line, m, lead, rest);
  }

  lemma TrimmedStart(line: string)
    ensures Text.Trim(line) != "" ==> !Text.IsSpace(Text.Trim(line)[0])
  {
    var n := WhitespaceLength(line);
    var rest := Text.TrimStart(line);
    var trail := EndParts(rest);
    if Text.Trim(line) != "" {
      assert rest[0] == Text.Trim(line)[0];
    }
  }

  lemma FirstToken(s: string)
    requires s != "" && !Text.IsSpace(s[0])
    ensures var n := Text.WordLength(s);
      Text.Tokens(s) != [] && Text.Tokens(s)[0] == s[..n] && Text.Word(s[..n]) && s[..n][0] == s[0]
  {
    WordLengthPositive(s);
  }

  lemma NamedIsModule(line: string, m: string, lead: string, rest: string)
    requires Text.Word(m) && m[0] != '#' && NamedIn(line, m, lead, rest)
    ensures UpdateInitramfsWriter.ModuleOf(line) == Some(m)
  {
    hide Text.IsSpace, Text.Trim, Text.Tokens, Text.TrimStart, Text.TrimEnd;
    assert line == lead + (m + rest);
    BlankBefore(lead, m + rest);
    Text.TokensOfWord(m, rest);
    TokensOfTrim(line);
    TrimKeepsFirst(line, lead, m, rest);
  }

  lemma TrimKeepsFirst(line: string, lead: string, m: string, rest: string)
    requires Text.Word(m) && NamedIn(line, m, lead, rest)
    ensures Text.Trim(line) != "" && Text.Trim(line)[0] == m[0]
  {
    hide Text.IsSpace;
    assert line == lead + (m + rest);
    TrimStartOfBlank(lead, m + rest);
    assert Text.TrimStart(m + rest) == m + rest;
    var trail := EndParts(m + rest);
    var core := Text.TrimEnd(m + rest);
    EndKept(m + rest);
  }

  lemma EndKept(s: string)
    requires s != "" && !Text.IsSpace(s[0])
    ensures Text.TrimEnd(s) != "" && Text.TrimEnd(s)[0] == s[0]
  {
    hide Text.IsSpace;
    if Text.IsSpace(s[|s| - 1]) {
      EndKept(s[..|s| - 1]);
    }
  }

  lemma ExistingIs(text: string, m: string)
    ensures m in UpdateInitramfsWriter.Existing(text) <==>
      exists i :: 0 <= i < |Text.Lines(text)| && NamesModule(Text.Lines(text)[i], m)
  {
    hide NamesModule, Text.Lines;
    ModulesOfAre(Text.Lines(text), m);
  }

  lemma ModulesOfAre(lines: seq<string>, m: string)
    ensures m in UpdateInitramfsWriter.ModulesOf(lines) <==>
      exists i :: 0 <= i < |lines| && NamesModule(lines[i], m)
  {
    hide NamesModule, UpdateInitramfsWriter.ModuleOf;
    if lines != [] {
      var n := |lines| - 1;
      ModulesOfAre(lines[..n], m);
      ModuleOfIs(lines[n], m);
      assert forall i | 0 <= i < n :: lines[..n][i] == lines[i];
    }
  }

  /** No line names the module. */
  ghost predicate Unnamed(text: string, m: string) {
    forall i | 0 <= i < |Text.Lines(text)| :: !NamesModule(Text.Lines(text)[i], m)
  }

  /**
   * After a pass over the module list `x`: it is still there, in front, the three modules are named, and
   * no module is that was not named before.
   */
  ghost predicate ModuleListSays(x: string, y: string) {
    && x <= y
    && (forall m | m in ["vfio_pci", "vfio", "vfio_iommu_type1"] ::
          exists i :: 0 <= i < |Text.Lines(y)| && NamesModule(Text.Lines(y)[i], m))
    && (forall m, i | 0 <= i < |Text.Lines(y)| && NamesModule(Text.Lines(y)[i], m) ::
          || m in ["vfio_pci", "vfio", "vfio_iommu_type1"]
          || exists j :: 0 <= j < |Text.Lines(x)| && NamesModule(Text.Lines(x)[j], m))
    && (y != x ==> Text.EndsWith(y, '\n'))
    && (Unnamed(x, "vfio_pci") || Unnamed(x, "vfio") || Unnamed(x, "vfio_iommu_type1") ==>
          Mentions(y, "# Virtu: VFIO modules"))
  }

  lemma UpdateInitramfsEffect(x: string)
    ensures ModuleListSays(x, UpdateInitramfsWriter.RewriteModules(x, VFIO_MODULES))
  {
    hide NamesModule, Text.Lines, UpdateInitramfsWriter.Existing, UpdateInitramfsWriter.RewriteModules;
    var y := UpdateInitramfsWriter.RewriteModules(x, VFIO_MODULES);
    MkinitcpioIsClean();
    ModulesAreNames();
    UpdateInitramfsWriter.RewriteModulesCorrect(x, VFIO_MODULES);
    RewriteEnds(x, VFIO_MODULES);
    RewriteMentions(x, VFIO_MODULES);
    forall m ensures m in UpdateInitramfsWriter.Existing(x) <==>
      exists i :: 0 <= i < |Text.Lines(x)| && NamesModule(Text.Lines(x)[i], m)
    {
      ExistingIs(x, m);
    }
    assert VFIO_MODULES[0] in VFIO_MODULES && VFIO_MODULES[1] in VFIO_MODULES && VFIO_MODULES[2] in VFIO_MODULES;
    UnnamedIs(x, "vfio_pci");
    UnnamedIs(x, "vfio");
    UnnamedIs(x, "vfio_iommu_type1");
    forall m ensures m in UpdateInitramfsWriter.Existing(y) <==>
      exists i :: 0 <= i < |Text.Lines(y)| && NamesModule(Text.Lines(y)[i], m)
    {
      ExistingIs(y, m);
    }
  }

  lemma UnnamedIs(x: string, m: string)
    ensures Unnamed(x, m) <==> m !in UpdateInitramfsWriter.Existing(x)
  {
    hide NamesModule, Text.Lines, UpdateInitramfsWriter.Existing;
    ExistingIs(x, m);
  }

  lemma ModulesAreNames()
    ensures UpdateInitramfsWriter.ModuleNames(VFIO_MODULES)
  {
    MkinitcpioIsClean();
    assert VFIO_MODULES[0][0] == 'v' && VFIO_MODULES[1][0] == 'v' && VFIO_MODULES[2][0] == 'v';
  }

  lemma RewriteEnds(x: string, wanted: seq<string>)
    ensures var y := UpdateInitramfsWriter.RewriteModules(x, wanted); y != x ==> Text.EndsWith(y, '\n')
  {
    hide UpdateInitramfsWriter.Existing, Text.Contains;
    var missing := UpdateInitramfsWriter.Missing(wanted, UpdateInitramfsWriter.Existing(x));
    if missing != [] {
      LastModuleLine(missing);
    }
  }

  lemma RewriteMentions(x: string, wanted: seq<string>)
    ensures (exists m :: m in wanted && m !in UpdateInitramfsWriter.Existing(x)) ==>
      Mentions(UpdateInitramfsWriter.RewriteModules(x, wanted), "# Virtu: VFIO modules")
  {
    hide UpdateInitramfsWriter.Existing, Text.Contains;
    var existing, output := UpdateInitramfsWriter.Existing(x), UpdateInitramfsWriter.Terminated(x);
    var missing := UpdateInitramfsWriter.Missing(wanted, existing);
    var header := "# Virtu: VFIO modules";
    UpdateInitramfsWriter.MissingMembers(wanted, existing);
    if missing != [] {
      var tail := UpdateInitramfsWriter.ModuleLines(missing);
      MentionsIs(output, header);
      if Text.Contains(output, header) {
        var i: nat :| MentionedAt(output, header, i);
        assert MentionedAt(output + "" + tail, header, i);
      } else {
        var y := output + (header + "\n") + tail;
        assert y[|output|..|output| + |header|] == header;
        assert MentionedAt(y, header, |output|);
      }
    }
  }

  lemma LastModuleLine(modules: seq<string>)
    requires modules != []
    ensures Text.EndsWith(UpdateInitramfsWriter.ModuleLines(modules), '\n')
  {
    if |modules| > 1 {
      LastModuleLine(modules[1..]);
    }
  }

  // ----- a step of the plan -----

  /**
   * What a Phase-A step has made of its file, which held `before`: the snippet for modprobe gives
   * vfio-pci exactly the devices to pass through, the boot loader's file asks the kernel for all that
   * passthrough needs, and each initramfs system is told of the VFIO modules in its own way.
   */
  ghost predicate EditSays(
    step: PlannedStep, host: SystemProfile, config: PassthroughConfig, before: string, after: string)
  {
    match step.kind
    case VfioConfig => exists ids, at :: IdsToPass(host, config, ids) && SnippetAt(ids, after, at)
    case BootloaderWrite =>
      (match host.bootloader.kind
       case Grub2 =>
         exists words ::
           AssignsWords(after, "GRUB_CMDLINE_LINUX_DEFAULT", words) && AsksForAll(words, host, config)
       case SystemdBoot => exists words :: OptionsAre(after, words) && AsksForAll(words, host, config)
       case _ => false)
    case InitramfsWrite =>
      (match host.initramfs
       case Mkinitcpio =>
         exists words ::
           ModulesAre(after, words) && forall m | m in ["vfio_pci", "vfio", "vfio_iommu_type1"] :: m in words
       case Dracut => exists at :: DracutAt(after, at)
       case UpdateInitramfs => ModuleListSays(before, after)
       case UnknownInitramfs => false)
    case _ => false
  }

  /** A file written for a step says what the step is for. */
  lemma WroteSays(step: PlannedStep, host: SystemProfile, config: PassthroughConfig, d: Disk, later: Disk)
    requires Wrote(step, host, config, d, later)
    requires AllVendorDeviceIds(CanonicalIds(config.gpuRoles, host.gpus))
    requires Text.NoCr(TextAt(d.files, step.touches[0]))
    ensures later.files[step.touches[0]].Raw?
    ensures EditSays(step, host, config, TextAt(d.files, step.touches[0]), later.files[step.touches[0]].text)
  {
    hide CanonicalIds, AllVendorDeviceIds, OptionsAre, AssignsWords, ModulesAre, SnippetAt, DracutAt, ModuleListSays;
    hide AsksForAll, IdsToPass, HostParams, Rewrite, VfioModprobeConf, DracutConf, Text.NoCr;
    hide UpdateInitramfsWriter.RewriteModules;
    var x, y := TextAt(d.files, step.touches[0]), later.files[step.touches[0]].text;
    HostParamsAskForAll(host, config);
    match step.kind
    case VfioConfig =>
      var ids := CanonicalIds(config.gpuRoles, host.gpus);
      var at := SnippetReadBack(ids, y);
    case BootloaderWrite =>
      KernelParamsAreClean(host, config);
      match host.bootloader.kind {
        case Grub2 =>
          var words := GrubEffect(HostParams(host, config), x, y, "GRUB_CMDLINE_LINUX_DEFAULT");
          MoreAsksForAll(HostParams(host, config), words, host, config);
        case SystemdBoot =>
          var words := SystemdEffect(HostParams(host, config), x, y);
          MoreAsksForAll(HostParams(host, config), words, host, config);
        case _ =>
      }
    case InitramfsWrite =>
      match host.initramfs {
        case Mkinitcpio => var words := MkinitcpioEffect(x, y);
        case Dracut => var at := DracutReadBack();
        case UpdateInitramfs => UpdateInitramfsEffect(x);
        case UnknownInitramfs =>
      }
    case _ =>
  }

  lemma MoreAsksForAll(params: seq<string>, words: seq<string>, host: SystemProfile, config: PassthroughConfig)
    requires AsksForAll(params, host, config) && forall p | p in params :: p in words
    ensures AsksForAll(words, host, config)
  {
    hide IdsToPass;
  }

  lemma KernelParamsAreClean(host: SystemProfile, config: PassthroughConfig)
    requires AllVendorDeviceIds(CanonicalIds(config.gpuRoles, host.gpus))
    ensures CleanDialect(Dialect.Grub(HostParams(host, config)))
    ensures CleanDialect(Dialect.SystemdBoot(HostParams(host, config)))
  {
    hide CanonicalIds, AllVendorDeviceIds;
    RequiredParamsAreClean(host.cpuVendor, CanonicalIds(config.gpuRoles, host.gpus));
    var params := HostParams(host, config);
    assert CleanDialect(Dialect.Grub(params));
    assert forall i | 0 <= i < |params| :: CleanParam(Dialect.Grub(params).Wanted()[i]);
  }
}
