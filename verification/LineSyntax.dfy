/** The target lines and their edits as texts, without the views the writers are specified by. */
module LineSyntax {
  import opened Wrappers
  import opened Text
  import opened LineView
  import opened Requoting

  ghost predicate Blank(s: string) {
    forall k | 0 <= k < |s| :: IsSpace(s[k])
  }

  lemma TrimStartOfBlank(lead: string, rest: string)
    requires Blank(lead)
    ensures TrimStart(lead + rest) == TrimStart(rest)
  {
    if lead == "" {
      assert lead + rest == rest;
    } else {
      assert (lead + rest)[1..] == lead[1..] + rest && (lead + rest)[0] == lead[0];
      TrimStartOfBlank(lead[1..], rest);
    }
  }

  lemma TrimEndOfBlank(rest: string, trail: string)
    requires Blank(trail)
    ensures TrimEnd(rest + trail) == TrimEnd(rest)
  {
    if trail == "" {
      assert rest + trail == rest;
    } else {
      hide IsSpace;
      var n := |trail| - 1;
      var s := rest + trail;
      assert s[..|s| - 1] == rest + trail[..n] && s[|s| - 1] == trail[n];
      TrimEndOfBlank(rest, trail[..n]);
    }
  }

  /** What trimming leaves, with what it takes away. */
  lemma TrimParts(s: string) returns (lead: string, trail: string)
    ensures Blank(lead) && Blank(trail) && s == lead + Trim(s) + trail
  {
    hide TrimStart, TrimEnd, IsSpace;
    var n := WhitespaceLength(s);
    lead := s[..n];
    trail := EndParts(TrimStart(s));
    assert s == lead + TrimStart(s);
    assert lead + (TrimEnd(TrimStart(s)) + trail) == lead + TrimEnd(TrimStart(s)) + trail;
  }

  lemma EndParts(s: string) returns (trail: string)
    ensures Blank(trail) && s == TrimEnd(s) + trail
  {
    if s != "" && IsSpace(s[|s| - 1]) {
      var before := EndParts(s[..|s| - 1]);
      trail := before + [s[|s| - 1]];
      assert s == s[..|s| - 1] + [s[|s| - 1]];
    } else {
      trail := "";
    }
  }

  lemma TrimAround(lead: string, core: string, trail: string)
    requires Blank(lead) && Blank(trail) && core != "" && !IsSpace(core[0]) && !IsSpace(core[|core| - 1])
    ensures Trim(lead + core + trail) == core && TrimStart(lead + core + trail) == core + trail
  {
    assert lead + core + trail == lead + (core + trail);
    TrimStartOfBlank(lead, core + trail);
    assert (core + trail)[0] == core[0];
    TrimEndOfBlank(core, trail);
  }

  // ----- which lines are targets -----

  /** GRUB: an assignment of the variable, with blanks around its name at most. */
  lemma GrubTargetIs(params: seq<string>, line: string, name: string)
    requires name == "GRUB_CMDLINE_LINUX_DEFAULT"
    ensures IsTarget(Dialect.Grub(params), line) <==>
      exists lead, trail, value :: Blank(lead) && Blank(trail) && line == lead + name + trail + "=" + value
  {
    if IsTarget(Dialect.Grub(params), line) {
      var eq := Find(line, '=');
      var lead, trail := TrimParts(line[..eq]);
      CutAt(line, eq);
      assert line == lead + name + trail + "=" + line[eq + 1..];
    }
    if exists lead, trail, value :: Blank(lead) && Blank(trail) && line == lead + name + trail + "=" + value {
      var lead, trail, value :| Blank(lead) && Blank(trail) && line == lead + name + trail + "=" + value;
      TargetVarFacts();
      NameEnds(name);
      TrimAround(lead, name, trail);
      BlankHasNoEquals(lead);
      BlankHasNoEquals(trail);
      GrubTargetKey(lead + name + trail, value);
    }
  }

  lemma NameEnds(name: string)
    requires name == "GRUB_CMDLINE_LINUX_DEFAULT"
    ensures name == TARGET_VAR && name != "" && !IsSpace(name[0]) && !IsSpace(name[|name| - 1]) && name[0] != '#'
  {
    TargetVarEnds(name);
  }

  lemma BlankHasNoEquals(s: string)
    requires Blank(s)
    ensures '=' !in s
  {
    assert !IsSpace('=');
  }

  /** The word `options`, after blanks at most. */
  ghost predicate IsOptions(line: string, lead: string, rest: string) {
    Blank(lead) && line == lead + "options" + rest && (rest == "" || IsSpace(rest[0]))
  }

  /** systemd-boot: such a line. */
  lemma SystemdTargetIs(params: seq<string>, line: string)
    ensures IsTarget(Dialect.SystemdBoot(params), line) <==> exists lead, rest :: IsOptions(line, lead, rest)
  {
    hide IsTarget, IsOptions;
    if IsTarget(Dialect.SystemdBoot(params), line) {
      var lead, rest := TargetIsOptions(params, line);
    }
    if exists lead, rest :: IsOptions(line, lead, rest) {
      var lead, rest :| IsOptions(line, lead, rest);
      OptionsIsTarget(params, line, lead, rest);
    }
  }

  lemma TargetIsOptions(params: seq<string>, line: string) returns (lead: string, rest: string)
    requires IsTarget(Dialect.SystemdBoot(params), line)
    ensures IsOptions(line, lead, rest)
  {
    hide TrimStart, IsSpace, WordLength;
    var n := WhitespaceLength(line);
    var trimmed := TrimStart(line);
    lead := line[..n];
    rest := OptionsPrefix(trimmed, "options");
    assert lead + trimmed == line;
    Regrouped(lead, "options", rest);
  }

  lemma Regrouped(a: string, b: string, c: string)
    ensures a + (b + c) == a + b + c
  {
  }

  lemma OptionsPrefix(trimmed: string, word: string) returns (rest: string)
    requires trimmed[..WordLength(trimmed)] == word
    ensures trimmed == word + rest && (rest == "" || IsSpace(rest[0]))
  {
    hide WordLength, IsSpace;
    rest := trimmed[WordLength(trimmed)..];
  }

  lemma OptionsIsTarget(params: seq<string>, line: string, lead: string, rest: string)
    requires IsOptions(line, lead, rest)
    ensures IsTarget(Dialect.SystemdBoot(params), line)
    ensures Leading(line) == lead && TrimStart(line) == "options" + rest && WordLength("options" + rest) == 7
  {
    var text := "options" + rest;
    assert line == lead + text && text[0] == 'o' && !IsSpace('o');
    LeadingOf(lead, text);
    WordLengthAt("options", rest);
    assert text[..7] == "options";
  }

  /** mkinitcpio: an assignment of `MODULES`, after blanks at most. */
  lemma MkinitcpioTargetIs(line: string)
    ensures IsTarget(Dialect.Mkinitcpio, line) <==>
      exists lead, value :: Blank(lead) && line == lead + "MODULES=" + value
  {
    if IsTarget(Dialect.Mkinitcpio, line) {
      var n := WhitespaceLength(line);
      var trimmed := TrimStart(line);
      assert trimmed == trimmed[..8] + trimmed[8..] && trimmed[..8] == "MODULES=";
      assert line == line[..n] + "MODULES=" + trimmed[8..];
    }
    if exists lead, value :: Blank(lead) && line == lead + "MODULES=" + value {
      var lead, value :| Blank(lead) && line == lead + "MODULES=" + value;
      var text := "MODULES=" + value;
      assert line == lead + text && text[0] == 'M' && !IsSpace('M');
      LeadingOf(lead, text);
      assert text[..8] == "MODULES=";
    }
  }

  // ----- what an edit makes of them -----

  /** A quoted GRUB value: the words change, the quotes and what follows them stay. */
  lemma GrubEditQuoted(key: string, c: char, inner: string, tail: string, params: seq<string>)
    requires '=' !in key && IsQuote(c) && c !in inner
    ensures Edit(Dialect.Grub(params), key + "=" + ([c] + inner + ([c] + tail)))
         == Some(key + "=" + ([c] + Join(AddMissing(Tokens(inner), params), " ") + ([c] + tail)))
  {
    ParseBack(c, inner, tail);
    EditOfAssignment(key, [c] + inner + ([c] + tail), Quoted([c], inner, tail), params);
  }

  /** An unquoted GRUB value. */
  lemma GrubEditUnquoted(key: string, value: string, params: seq<string>)
    requires '=' !in key && (value == "" || !IsQuote(value[0]))
    ensures Edit(Dialect.Grub(params), key + "=" + value)
         == Some(key + "=" + Join(AddMissing(Tokens(value), params), " "))
  {
    EditOfAssignment(key, value, Quoted("", value, ""), params);
    SameText(Join(AddMissing(Tokens(value), params), " "));
  }

  /** A GRUB value whose quote is not closed is refused. */
  lemma GrubEditUnclosed(key: string, c: char, rest: string, params: seq<string>)
    requires '=' !in key && IsQuote(c) && c !in rest
    ensures Edit(Dialect.Grub(params), key + "=" + ([c] + rest)) == None
  {
    SplitAtEquals(key, [c] + rest);
    assert ([c] + rest)[1..] == rest;
    assert Find(rest, c) == |rest|;
  }

  /** A systemd-boot line: the blanks before `options` stay, its words are spaced evenly. */
  lemma SystemdEdit(lead: string, rest: string, params: seq<string>)
    requires Blank(lead) && (rest == "" || IsSpace(rest[0]))
    ensures Edit(Dialect.SystemdBoot(params), lead + "options" + rest)
         == Some(lead + "options " + Join(AddMissing(Tokens(rest), params), " "))
  {
    hide Join, AddMissing, Leading;
    var line, text := lead + "options" + rest, "options" + rest;
    OptionsIsTarget(params, line, lead, rest);
    var tokens := Tokens(OptionsValue(text));
    OptionsWords(rest);
    assert SystemdView(line) == View(lead + "options ", tokens, "");
    var value := Join(AddMissing(tokens, params), " ");
    assert lead + "options " + value + "" == lead + "options " + value;
  }

  lemma OptionsWords(rest: string)
    requires rest == "" || IsSpace(rest[0])
    ensures Tokens(OptionsValue("options" + rest)) == Tokens(rest)
  {
    hide Tokens, WordLength, Trim;
    var text := "options" + rest;
    WordLengthAt("options", rest);
    if rest == "" {
      NoTokens();
    } else {
      assert text[8..] == rest[1..];
      TokensOfTrim(rest[1..]);
      OneBlankBefore(rest);
    }
  }

  lemma OneBlankBefore(s: string)
    requires s != "" && IsSpace(s[0])
    ensures Tokens(s) == Tokens(s[1..])
  {
  }

  lemma TokensOfTrim(s: string)
    ensures Tokens(Trim(s)) == Tokens(s)
  {
    var lead, trail := TrimParts(s);
    BlankBefore(lead, Trim(s) + trail);
    assert lead + (Trim(s) + trail) == s;
    BlankAfter(Trim(s), trail);
  }

  lemma BlankBefore(lead: string, s: string)
    requires Blank(lead)
    ensures Tokens(lead + s) == Tokens(s)
  {
    if lead == "" {
      assert lead + s == s;
    } else {
      assert (lead + s)[1..] == lead[1..] + s && (lead + s)[0] == lead[0];
      BlankBefore(lead[1..], s);
    }
  }

  lemma BlankAfter(s: string, trail: string)
    requires Blank(trail)
    ensures Tokens(s + trail) == Tokens(s)
    decreases |s|
  {
    hide Tokens, IsSpace;
    if s == "" {
      NoTokens();
      assert s + trail == trail + "";
      BlankBefore(trail, "");
    } else if IsSpace(s[0]) {
      assert (s + trail)[1..] == s[1..] + trail && (s + trail)[0] == s[0];
      OneBlankBefore(s);
      OneBlankBefore(s + trail);
      BlankAfter(s[1..], trail);
    } else {
      var n := WordLength(s);
      var w, rest := s[..n], s[n..];
      WordLengthPositive(s);
      assert s == w + rest && s + trail == w + (rest + trail);
      assert rest + trail == "" || IsSpace((rest + trail)[0]);
      TokensOfWord(w, rest + trail);
      TokensOfWord(w, rest);
      BlankAfter(rest, trail);
    }
  }

  lemma WordLengthPositive(s: string)
    requires s != "" && !IsSpace(s[0])
    ensures WordLength(s) > 0
  {
  }

  /** A mkinitcpio array: its words are spaced evenly, blanks around it go. */
  lemma MkinitcpioEdit(key: string, lead: string, inner: string, trail: string)
    requires '=' !in key && Blank(lead) && Blank(trail)
    ensures Edit(Dialect.Mkinitcpio, key + "=" + (lead + ("(" + inner + ")") + trail))
         == Some(key + "=(" + Join(AddMissing(Tokens(inner), ["vfio_pci", "vfio", "vfio_iommu_type1"]), " ") + ")")
  {
    hide Join, AddMissing, Tokens, Find;
    var core := "(" + inner + ")";
    var value := lead + core + trail;
    SplitAtEquals(key, value);
    assert core[0] == '(' && core[|core| - 1] == ')' && core[1..|core| - 1] == inner;
    assert !IsSpace('(') && !IsSpace(')');
    TrimAround(lead, core, trail);
    assert VFIO_MODULES == ["vfio_pci", "vfio", "vfio_iommu_type1"];
  }

  /** Nothing else than an array is accepted. */
  lemma MkinitcpioEditAccepts(key: string, value: string) returns (lead: string, inner: string, trail: string)
    requires '=' !in key && Edit(Dialect.Mkinitcpio, key + "=" + value).Some?
    ensures Blank(lead) && Blank(trail) && value == lead + ("(" + inner + ")") + trail
  {
    hide Trim, AddMissing, Blank, IsSpace, Find, Tokens;
    SplitAtEquals(key, value);
    lead, trail := TrimParts(value);
    var core := Trim(value);
    inner := core[1..|core| - 1];
    assert core == "(" + inner + ")";
  }

  // ----- which words are appended -----

  /** `w` occurs for the first time at `b`. */
  ghost predicate FirstAt(s: seq<string>, b: nat, w: string) {
    b < |s| && s[b] == w && w !in s[..b]
  }

  /** The words kept, and after them each wanted word that was not among them, once, in the order wanted. */
  lemma AddMissingIs(tokens: seq<string>, wanted: seq<string>) returns (added: seq<string>, at: seq<nat>)
    ensures AddMissing(tokens, wanted) == tokens + added
    ensures forall w :: w in added <==> w in wanted && w !in tokens
    ensures |at| == |added| && forall k | 0 <= k < |at| :: FirstAt(wanted, at[k], added[k])
    ensures forall j, k | 0 <= j < k < |at| :: at[j] < at[k]
    decreases |wanted|
  {
    if wanted == [] {
      added, at := [], [];
    } else {
      var w, rest := wanted[0], wanted[1..];
      var next := if w in tokens then tokens else tokens + [w];
      var more, later := AddMissingIs(next, rest);
      var shifted := AllLater(w, rest, more, later);
      assert wanted == [w] + rest;
      if w in tokens {
        added, at := more, shifted;
      } else {
        added, at := [w] + more, [0] + shifted;
        assert tokens + ([w] + more) == (tokens + [w]) + more;
      }
    }
  }

  lemma AllLater(w: string, rest: seq<string>, added: seq<string>, at: seq<nat>) returns (later: seq<nat>)
    requires w !in added && |at| == |added| && forall k | 0 <= k < |at| :: FirstAt(rest, at[k], added[k])
    requires forall j, k | 0 <= j < k < |at| :: at[j] < at[k]
    ensures |later| == |at| && forall k | 0 <= k < |at| :: later[k] > 0 && FirstAt([w] + rest, later[k], added[k])
    ensures forall j, k | 0 <= j < k < |at| :: later[j] < later[k]
  {
    hide FirstAt;
    later := seq(|at|, k requires 0 <= k < |at| => at[k] + 1);
    forall k | 0 <= k < |at| ensures FirstAt([w] + rest, later[k], added[k]) {
      assert added[k] in added;
      FirstLater(w, rest, at[k], added[k]);
    }
  }

  lemma FirstLater(w: string, rest: seq<string>, b: nat, x: string)
    requires FirstAt(rest, b, x) && x != w
    ensures FirstAt([w] + rest, b + 1, x)
  {
    assert ([w] + rest)[..b + 1] == [w] + rest[..b];
  }
}
