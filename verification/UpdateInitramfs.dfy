/** The update-initramfs writer: missing VFIO modules appended to the module list. */
module UpdateInitramfs {
  import opened Wrappers
  import opened Text

  const HEADER := "# Virtu: VFIO modules"

  /** The module a line names, if it is neither blank nor a comment. */
  function ModuleOf(line: string): Option<string> {
    var trimmed := Trim(line);
    if trimmed == "" || trimmed[0] == '#' || Tokens(trimmed) == [] then None else Some(Tokens(trimmed)[0])
  }

  function ModulesOf(lines: seq<string>): set<string> {
    if lines == [] then {}
    else
      ModulesOf(lines[..|lines| - 1]) +
      match ModuleOf(lines[|lines| - 1]) { case None => {} case Some(m) => {m} }
  }

  function Existing(text: string): set<string> {
    ModulesOf(Lines(text))
  }

  function Missing(wanted: seq<string>, existing: set<string>): seq<string> {
    if wanted == [] then []
    else (if wanted[0] in existing then [] else [wanted[0]]) + Missing(wanted[1..], existing)
  }

  /** One terminated line per module. */
  function ModuleLines(modules: seq<string>): string {
    if modules == [] then "" else modules[0] + "\n" + ModuleLines(modules[1..])
  }

  function Terminated(s: string): string {
    if s != "" && !EndsWith(s, '\n') then s + "\n" else s
  }

  function RewriteModules(input: string, wanted: seq<string>): string {
    var missing := Missing(wanted, Existing(input));
    var output := Terminated(input);
    if missing == [] then output
    else output + (if Contains(output, HEADER) then "" else HEADER + "\n") + ModuleLines(missing)
  }

  method CollectExisting(input: string) returns (existing: set<string>)
    ensures existing == Existing(input)
  {
    existing := {};
    var lines := Lines(input);
    for i := 0 to |lines|
      invariant existing == ModulesOf(lines[..i])
    {
      assert lines[..i + 1][..i] == lines[..i];
      var m := ModuleOf(lines[i]);
      if m.Some? {
        existing := existing + {m.value};
      }
    }
    assert lines[..|lines|] == lines;
  }

  method CollectMissing(wanted: seq<string>, existing: set<string>) returns (missing: seq<string>)
    ensures missing == Missing(wanted, existing)
  {
    missing := [];
    for i := 0 to |wanted|
      invariant missing + Missing(wanted[i..], existing) == Missing(wanted, existing)
    {
      assert wanted[i..][1..] == wanted[i + 1..];
      if wanted[i] !in existing {
        missing := missing + [wanted[i]];
      }
    }
  }

  method AppendLines(text: string, modules: seq<string>) returns (output: string)
    ensures output == text + ModuleLines(modules)
  {
    output := text;
    for i := 0 to |modules|
      invariant output + ModuleLines(modules[i..]) == text + ModuleLines(modules)
    {
      var rest := modules[i + 1..];
      assert modules[i..][1..] == rest;
      assert output + (modules[i] + "\n" + ModuleLines(rest)) == output + modules[i] + "\n" + ModuleLines(rest);
      output := output + modules[i];
      output := output + "\n";
    }
    assert output + "" == output;
  }

  method RewriteInitramfsModules(input: string, modules: seq<string>) returns (output: string)
    ensures output == RewriteModules(input, modules)
  {
    var existing := CollectExisting(input);
    output := input;
    if output != "" && !EndsWith(output, '\n') {
      output := output + "\n";
    }
    var missing := CollectMissing(modules, existing);
    if missing == [] {
      return;
    }
    if !Contains(output, HEADER) {
      output := output + (HEADER + "\n");
    } else {
      assert output + "" == output;
    }
    output := AppendLines(output, missing);
  }

  // ----- properties -----

  /** The last piece is empty exactly when the text is empty or terminated. */
  lemma LastPiece(s: string)
    ensures var pieces := Split(s, '\n'); pieces[|pieces| - 1] == "" <==> s == "" || EndsWith(s, '\n')
  {
    var pieces := Split(s, '\n');
    var n := |pieces| - 1;
    JoinSplit(s, '\n');
    LastOfJoin(pieces, "\n");
    if pieces[n] != "" {
      assert s[|s| - 1] == pieces[n][|pieces[n]| - 1];
    }
  }

  /** Terminating a text adds an empty piece. */
  lemma SplitTerminated(s: string)
    ensures Split(s + "\n", '\n') == Split(s, '\n') + [""]
  {
    var pieces := Split(s, '\n');
    JoinSplit(s, '\n');
    JoinSnoc(pieces, "", "\n");
    assert Join(pieces, "\n") + "\n" + "" == s + "\n";
    SplitJoin(pieces + [""], '\n');
  }

  /** Text after a terminated text extends its last, empty piece. */
  lemma SplitContinued(a: string, line: string)
    requires a == "" || EndsWith(a, '\n')
    requires '\n' !in line
    ensures var pieces := Split(a, '\n'); Split(a + line, '\n') == pieces[..|pieces| - 1] + [line]
  {
    var pieces := Split(a, '\n');
    var front := pieces[..|pieces| - 1];
    LastPiece(a);
    JoinSplit(a, '\n');
    LastOfJoin(pieces, "\n");
    if front == [] {
      assert a + line == line;
      SplitNone(line, '\n');
    } else {
      assert Join(front, "\n") + "\n" + "" == Join(front, "\n") + "\n";
      JoinSnoc(front, line, "\n");
      SplitJoin(front + [line], '\n');
    }
  }

  lemma LinesOfTerminated(a: string, line: string)
    requires a == "" || EndsWith(a, '\n')
    requires Unbroken(line)
    ensures Lines(a + line + "\n") == Lines(a) + [line]
  {
    hide Split, LinesOfPieces;
    var pieces := Split(a, '\n');
    var front := pieces[..|pieces| - 1];
    LastPiece(a);
    SplitContinued(a, line);
    SplitTerminated(a + line);
    LinesOfPiecesSnoc(front, line);
    assert front + [""] == pieces;
    assert front + [line] + [""] == Split(a + line + "\n", '\n');
  }

  lemma LinesOfPiecesSnoc(front: seq<string>, line: string)
    requires StripCr(line) == line
    ensures LinesOfPieces(front + [line] + [""]) == LinesOfPieces(front + [""]) + [line]
  {
  }

  lemma ExistingAppend(a: string, line: string)
    requires a == "" || EndsWith(a, '\n')
    requires Unbroken(line)
    ensures Existing(a + line + "\n") == Existing(a) + match ModuleOf(line) { case None => {} case Some(m) => {m} }
  {
    hide ModuleOf, Lines, EndsWith, Unbroken;
    LinesOfTerminated(a, line);
    var lines := Lines(a) + [line];
    assert lines[..|lines| - 1] == Lines(a);
  }

  /** Adding the missing final terminator names no new module. */
  lemma ExistingTerminated(s: string)
    ensures Existing(Terminated(s)) == Existing(s)
  {
    hide ModuleOf, Split, LinesOfPieces;
    if Terminated(s) != s {
      var pieces := Split(s, '\n');
      var n := |pieces| - 1;
      LastPiece(s);
      SplitTerminated(s);
      ModuleIgnoresCr(pieces[n]);
      TerminatedLines(pieces);
    }
  }

  lemma TerminatedLines(pieces: seq<string>)
    requires |pieces| >= 1 && pieces[|pieces| - 1] != ""
    ensures var n := |pieces| - 1; var lines, more := LinesOfPieces(pieces), LinesOfPieces(pieces + [""]);
      |more| == |lines| == n + 1 && more[..n] == lines[..n] && lines[n] == pieces[n] && more[n] == StripCr(pieces[n])
  {
  }

  lemma ModuleIgnoresCr(line: string)
    ensures ModuleOf(StripCr(line)) == ModuleOf(line)
  {
    if EndsWith(line, '\r') {
      var front := line[..|line| - 1];
      assert line == front + ['\r'];
      TrimDropsLast(front, '\r');
    }
  }

  lemma TrimDropsLast(s: string, c: char)
    requires IsSpace(c)
    ensures Trim(s + [c]) == Trim(s)
  {
    if s == "" {
      assert s + [c] == [c];
      assert [c][1..] == "";
    } else if IsSpace(s[0]) {
      assert (s + [c])[1..] == s[1..] + [c] && (s + [c])[0] == s[0];
      TrimDropsLast(s[1..], c);
    } else {
      assert (s + [c])[0] == s[0];
      assert (s + [c])[..|s|] == s;
    }
  }

  lemma ModuleOfWord(w: string)
    requires Word(w) && w[0] != '#'
    ensures ModuleOf(w) == Some(w) && Unbroken(w)
  {
    TrimFixed(w);
    TokensOfWord(w, "");
    assert w + "" == w;
    assert IsSpace('\n') && IsSpace('\r');
  }

  predicate ModuleNames(modules: seq<string>) {
    forall i | 0 <= i < |modules| :: Word(modules[i]) && modules[i][0] != '#'
  }

  lemma {:induction false} ExistingOfModuleLines(a: string, modules: seq<string>)
    requires a == "" || EndsWith(a, '\n')
    requires ModuleNames(modules)
    ensures Existing(a + ModuleLines(modules)) == Existing(a) + set m | m in modules
    ensures var s := a + ModuleLines(modules); s == "" || EndsWith(s, '\n')
    decreases |modules|
  {
    if modules == [] {
      assert a + "" == a;
    } else {
      var m, rest := modules[0], modules[1..];
      var next := a + m + "\n";
      AddModule(a, m);
      ExistingOfModuleLines(next, rest);
      Regroup(a, m, ModuleLines(rest));
      FirstAndRest(modules);
    }
  }

  lemma AddModule(a: string, m: string)
    requires a == "" || EndsWith(a, '\n')
    requires Word(m) && m[0] != '#'
    ensures Existing(a + m + "\n") == Existing(a) + {m} && EndsWith(a + m + "\n", '\n')
  {
    ModuleOfWord(m);
    ExistingAppend(a, m);
  }

  lemma Regroup(a: string, m: string, rest: string)
    ensures a + (m + "\n" + rest) == (a + m + "\n") + rest
  {
  }

  lemma FirstAndRest(modules: seq<string>)
    requires modules != []
    ensures (set m | m in modules) == {modules[0]} + set m | m in modules[1..]
  {
    assert modules == [modules[0]] + modules[1..];
  }

  lemma MissingMembers(wanted: seq<string>, existing: set<string>)
    ensures forall m :: m in Missing(wanted, existing) <==> m in wanted && m !in existing
    ensures Missing(wanted, existing) == [] <==> forall m | m in wanted :: m in existing
    ensures ModuleNames(wanted) ==> ModuleNames(Missing(wanted, existing))
  {
    if wanted != [] {
      MissingMembers(wanted[1..], existing);
      assert wanted == [wanted[0]] + wanted[1..];
      var m := Missing(wanted, existing);
      assert wanted[0] !in existing ==> m[1..] == Missing(wanted[1..], existing);
    }
  }

  lemma HeaderFacts()
    ensures Unbroken(HEADER) && ModuleOf(HEADER) == None
  {
    TrimFixed(HEADER);
  }

  /**
   * The output starts with the input, names every wanted module and nothing else that the input
   * did not, and rewriting it again changes nothing: for every input, carriage returns included.
   */
  lemma RewriteModulesCorrect(x: string, wanted: seq<string>)
    requires ModuleNames(wanted)
    ensures var y := RewriteModules(x, wanted);
      && x <= y
      && (forall m :: m in Existing(y) <==> m in Existing(x) || m in wanted)
      && RewriteModules(y, wanted) == y
  {
    hide Existing, Contains, ModuleNames;
    var missing := Missing(wanted, Existing(x));
    var y := RewriteModules(x, wanted);
    var output := Terminated(x);
    MissingMembers(wanted, Existing(x));
    ExistingTerminated(x);
    if missing != [] {
      var head := if Contains(output, HEADER) then "" else HEADER + "\n";
      var before := output + head;
      HeaderFacts();
      if head == "" {
        assert before == output;
      } else {
        ExistingAppend(output, HEADER);
        assert before == output + HEADER + "\n";
      }
      assert Existing(before) == Existing(x);
      ExistingOfModuleLines(before, missing);
      assert y == before + ModuleLines(missing);
      assert output <= before <= y;
    }
    MissingMembers(wanted, Existing(y));
    assert Terminated(y) == y;
  }
}
