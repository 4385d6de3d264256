/** The systemd-boot writer: kernel parameters on the `options` line of an entry. */
module SystemdBoot {
  import opened Wrappers
  import opened Records
  import opened Text
  import opened LineView
  import opened LineRewriter

  /** The loop over the parameters. */
  method PushMissing(existing: seq<string>, params: seq<string>) returns (tokens: seq<string>)
    ensures tokens == AddMissing(existing, params)
  {
    tokens := existing;
    for i := 0 to |params|
      invariant tokens == AddMissing(existing, params[..i])
    {
      AddMissingTwice(existing, params[..i], [params[i]]);
      assert params[..i] + [params[i]] == params[..i + 1];
      if params[i] !in tokens {
        tokens := tokens + [params[i]];
      }
    }
    assert params[..|params|] == params;
  }

  method RewriteSystemdBootEntry(input: string, params: seq<string>) returns (r: Result<string, WriterError>)
    ensures r == Rewrite(Dialect.SystemdBoot(params), input)
  {
    hide Tokens, Join, Lines, Finish, IsSpace, AddMissing;
    if params == [] {
      return Failure(EmptyParams);
    }
    ghost var d := Dialect.SystemdBoot(params);
    var found := false;
    var outputLines: seq<string> := [];
    var lines := Lines(input);
    PrependEmpty(RewriteFrom(d, lines, 0, false));
    for idx := 0 to |lines|
      invariant RewriteFrom(d, lines, 0, false) == Prepend(outputLines, RewriteFrom(d, lines, idx, found))
    {
      var line := lines[idx];
      ghost var rest := RewriteFrom(d, lines, idx + 1, found || IsTarget(d, line));
      var trimmed := TrimStart(line);
      if trimmed == "" || trimmed[0] == '#' {
        PrependTwice(outputLines, [line], rest);
        outputLines := outputLines + [line];
        continue;
      }
      var key := trimmed[..WordLength(trimmed)];
      if key == "options" {
        if found {
          return Failure(MalformedInput(idx + 1));
        }
        found := true;
        var value := OptionsValue(trimmed);
        NoTokens();
        var tokens := if value == "" then [] else Tokens(value);
        tokens := PushMissing(tokens, params);
        var updated := Leading(line) + "options " + Join(tokens, " ");
        assert updated + "" == updated;
        PrependTwice(outputLines, [updated], rest);
        outputLines := outputLines + [updated];
      } else {
        PrependTwice(outputLines, [line], rest);
        outputLines := outputLines + [line];
      }
    }
    assert outputLines + [] == outputLines;
    if !found {
      outputLines := outputLines + ["options " + Join(params, " ")];
    }
    return Success(Finish(input, outputLines));
  }
}
