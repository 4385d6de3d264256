/** The mkinitcpio writer: the VFIO modules in the `MODULES=(...)` array. */
module Mkinitcpio {
  import opened Wrappers
  import opened Records
  import opened Text
  import opened LineView
  import opened LineRewriter

  method EnsureModulesInArrayLine(line: string) returns (r: Option<string>)
    ensures r == Edit(Dialect.Mkinitcpio, line)
  {
    hide Tokens, Trim, Join, IsSpace;
    var eq := Find(line, '=');
    if eq == |line| {
      return None;
    }
    var key := line[..eq];
    var trimmed := Trim(line[eq + 1..]);
    if trimmed == "" || trimmed[0] != '(' || trimmed[|trimmed| - 1] != ')' {
      return None;
    }
    var tokens := Tokens(trimmed[1..|trimmed| - 1]);
    ghost var existing := tokens;
    for i := 0 to |VFIO_MODULES|
      invariant tokens == AddMissing(existing, VFIO_MODULES[..i])
    {
      AddMissingTwice(existing, VFIO_MODULES[..i], [VFIO_MODULES[i]]);
      assert VFIO_MODULES[..i] + [VFIO_MODULES[i]] == VFIO_MODULES[..i + 1];
      if VFIO_MODULES[i] !in tokens {
        tokens := tokens + [VFIO_MODULES[i]];
      }
    }
    assert VFIO_MODULES[..|VFIO_MODULES|] == VFIO_MODULES;
    return Some(key + "=(" + Join(tokens, " ") + ")");
  }

  method RewriteMkinitcpioConf(input: string) returns (r: Result<string, WriterError>)
    ensures r == Rewrite(Dialect.Mkinitcpio, input)
  {
    ghost var d := Dialect.Mkinitcpio;
    var found := false;
    var outputLines: seq<string> := [];
    var lines := Lines(input);
    PrependEmpty(RewriteFrom(d, lines, 0, false));
    for idx := 0 to |lines|
      invariant RewriteFrom(d, lines, 0, false) == Prepend(outputLines, RewriteFrom(d, lines, idx, found))
    {
      var line := lines[idx];
      ghost var rest := RewriteFrom(d, lines, idx + 1, found || IsTarget(d, line));
      if "MODULES=" <= TrimStart(line) {
        if found {
          return Failure(MalformedInput(idx + 1));
        }
        found := true;
        var updated := EnsureModulesInArrayLine(line);
        if updated.None? {
          return Failure(MalformedInput(idx + 1));
        }
        PrependTwice(outputLines, [updated.value], rest);
        outputLines := outputLines + [updated.value];
      } else {
        PrependTwice(outputLines, [line], rest);
        outputLines := outputLines + [line];
      }
    }
    assert outputLines + [] == outputLines;
    if !found {
      outputLines := outputLines + ["MODULES=(" + Join(VFIO_MODULES, " ") + ")"];
    }
    return Success(Finish(input, outputLines));
  }
}
