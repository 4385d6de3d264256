/** The GRUB writer: kernel parameters in `GRUB_CMDLINE_LINUX_DEFAULT`. */
module Grub {
  import opened Wrappers
  import opened Records
  import opened Text
  import opened LineView
  import opened Requoting
  import opened LineRewriter

  /** The line with each missing parameter appended to its value. */
  method EnsureParamsInLine(line: string, params: seq<string>) returns (r: Option<string>)
    ensures r == Edit(Dialect.Grub(params), line)
  {
    hide Tokens, Join, Find, AddMissing, Edit, GrubView, ParseQuotedValue;
    EditByParts(line, params);
    var eq := Find(line, '=');
    if eq == |line| {
      return None;
    }
    var key := line[..eq];
    var parsed := ParseQuotedValue(line[eq + 1..]);
    if parsed.None? {
      return None;
    }
    var q := parsed.value;
    var tokens := if q.inner == "" then [] else Tokens(q.inner);
    assert tokens == Tokens(q.inner) by {
      NoTokens();
    }
    ghost var existing := tokens;
    AddMissingMore(existing, params, 0);
    for i := 0 to |params|
      invariant tokens == AddMissing(existing, params[..i])
    {
      AddMissingMore(existing, params, i);
      if params[i] !in tokens {
        tokens := tokens + [params[i]];
      }
    }
    assert params[..|params|] == params;
    var newValue := Join(tokens, " ");
    var formatted := if q.quote == "\"" then "\"" + newValue + "\""
                     else if q.quote == "'" then "'" + newValue + "'"
                     else newValue;
    Formatted(q.quote, newValue);
    return Some(key + "=" + formatted + q.tail);
  }

  /** The edit, from the parsed value. */
  lemma EditByParts(line: string, params: seq<string>)
    ensures var eq := Find(line, '=');
      if eq == |line| || ParseQuotedValue(line[eq + 1..]).None? then Edit(Dialect.Grub(params), line).None?
      else
        var q := ParseQuotedValue(line[eq + 1..]).value;
        var value := Join(AddMissing(Tokens(q.inner), params), " ");
        && q.quote in ["", "\"", "'"]
        && Edit(Dialect.Grub(params), line) == Some(line[..eq] + "=" + (q.quote + value + q.quote) + q.tail)
  {
    hide Tokens, Join, Find, AddMissing;
    var eq := Find(line, '=');
    if eq < |line| && ParseQuotedValue(line[eq + 1..]).Some? {
      var q := ParseQuotedValue(line[eq + 1..]).value;
      RenderGrub(line[..eq], q.quote, Join(AddMissing(Tokens(q.inner), params), " "), q.tail);
    }
  }

  lemma Formatted(quote: string, value: string)
    requires quote in ["", "\"", "'"]
    ensures quote + value + quote ==
      if quote == "\"" then "\"" + value + "\"" else if quote == "'" then "'" + value + "'" else value
  {
  }

  lemma AddMissingMore(tokens: seq<string>, params: seq<string>, i: nat)
    requires i <= |params|
    ensures AddMissing(tokens, []) == tokens
    ensures i < |params| ==>
      var before := AddMissing(tokens, params[..i]);
      AddMissing(tokens, params[..i + 1]) == if params[i] in before then before else before + [params[i]]
  {
    if i < |params| {
      AddMissingTwice(tokens, params[..i], [params[i]]);
      assert params[..i] + [params[i]] == params[..i + 1];
    }
  }

  lemma RenderGrub(key: string, quote: string, value: string, tail: string)
    ensures key + "=" + (quote + value + quote) + tail == (key + "=" + quote) + value + (quote + tail)
  {
  }

  method RewriteGrubDefault(input: string, params: seq<string>) returns (r: Result<string, WriterError>)
    ensures r == Rewrite(Dialect.Grub(params), input)
  {
    if params == [] {
      return Failure(EmptyParams);
    }
    ghost var d := Dialect.Grub(params);
    var found := false;
    var outputLines: seq<string> := [];
    var lines := Lines(input);
    PrependEmpty(RewriteFrom(d, lines, 0, false));
    for idx := 0 to |lines|
      invariant RewriteFrom(d, lines, 0, false) == Prepend(outputLines, RewriteFrom(d, lines, idx, found))
    {
      var line := lines[idx];
      ghost var rest := RewriteFrom(d, lines, idx + 1, found || IsTarget(d, line));
      var assignment := SplitAssignment(line);
      if assignment.Some? && assignment.value.0 == TARGET_VAR {
        if found {
          return Failure(MalformedInput(idx + 1));
        }
        found := true;
        var updated := EnsureParamsInLine(line, params);
        if updated.None? {
          return Failure(MalformedInput(idx + 1));
        }
        PrependTwice(outputLines, [updated.value], rest);
        outputLines := outputLines + [updated.value];
        continue;
      }
      PrependTwice(outputLines, [line], rest);
      outputLines := outputLines + [line];
    }
    assert outputLines + [] == outputLines;
    if !found {
      outputLines := outputLines + [TARGET_VAR + "=\"" + Join(params, " ") + "\""];
    }
    return Success(Finish(input, outputLines));
  }

  // ----- what the rewritten file means -----

  /** The words of the one target line of a file. */
  function TargetWords(d: Dialect, text: string, t: nat): seq<string>
    requires t < |Lines(text)| && ViewOf(d, Lines(text)[t]).Some?
  {
    ViewOf(d, Lines(text)[t]).value.tokens
  }

  /**
   * With a target line: its place, its key and every other line stay, except that a final blank line
   * of a terminated file is dropped. The new target has the old frame, quote and tail included, with
   * the old words in order followed by the missing parameters in order, exactly if the line is
   * steady; if not, reading it back gives what can be read off the old line, or nothing.
   */
  lemma RewriteMeaning(d: Dialect, x: string, t: nat)
    requires CleanDialect(d) && NoCr(x) && SoleTarget(d, Lines(x), t)
    ensures Rewrite(d, x).Success?
    ensures var y := Rewrite(d, x).value; var v := ViewOf(d, Lines(x)[t]).value;
      && t < |Lines(y)| && FirstTarget(d, Lines(y)) == t
      && (forall i | 0 <= i < |Lines(y)| :: IsTarget(d, Lines(y)[i]) <==> i == t)
      && ViewOf(d, Lines(y)[t]) == ReadBack(d, Lines(x)[t])
      && (ViewOf(d, Lines(y)[t]) == Some(v.(tokens := AddMissing(v.tokens, d.Wanted()))) <==> Steady(d, Lines(x)[t]))
      && Lines(y)[..t] == Lines(x)[..t]
      && (Lines(y)[t + 1..] == Lines(x)[t + 1..] ||
          (EndsWith(x, '\n') && Lines(x)[t + 1..] == Lines(y)[t + 1..] + [""]))
  {
    hide IsTarget, Edit, Extra, ViewOf, Steady, CleanDialect, Rewrite, Lines, AddMissing, ReadBack;
    OnePass(d, x, t);
    AfterFirstPass(d, x, t);
    EditHasView(d, Lines(x)[t]);
    EditMeaningIff(d, Lines(x)[t]);
    EditReadBack(d, Lines(x)[t]);
    var lines, after := Lines(x), Lines(Rewrite(d, x).value);
    var e := Edit(d, lines[t]).value;
    if |after| == |lines| {
      assert after == lines[t := e];
    } else {
      assert after == lines[t := e][..|lines| - 1];
      assert lines[t + 1..] == after[t + 1..] + [""];
    }
  }

  /** Without one: the file's lines are kept and a target holding exactly the parameters follows. */
  lemma AppendMeaning(d: Dialect, x: string)
    requires CleanDialect(d) && NoCr(x) && NoTarget(d, Lines(x))
    ensures Rewrite(d, x).Success?
    ensures var y := Rewrite(d, x).value; var t := |Lines(x)|;
      && Lines(y) == Lines(x) + [Extra(d)]
      && SoleTarget(d, Lines(y), t)
      && TargetWords(d, y, t) == d.Wanted()
  {
    hide IsTarget, Edit, Extra, ViewOf, Steady, CleanDialect, Lines, Rewrite, TextOf;
    AppendPass(d, x);
    ExtraIsSettled(d);
  }

  /** A line to which adding `p` and later `q` is adding both; if it is not steady, `q` must be there already. */
  predicate AddsBoth(p: seq<string>, q: seq<string>, line: string) {
    || Steady(Dialect.Grub(p), line)
    || (QuotesAll(Dialect.Grub(q), line) && forall w | w in q :: w in Tokens(ValueOf(line)) || w in p)
  }

  /** Text up to the first `c` is determined. */
  lemma UpToFirst(a: string, b: string, c: char, restA: string, restB: string)
    requires c !in a && c !in b && a + ([c] + restA) == b + ([c] + restB)
    ensures a == b && restA == restB
  {
    var x := a + ([c] + restA);
    assert x[..|a|] == a && x[|a|] == c && x[..|b|] == b && x[|b|] == c;
    FindAt(x, c, |a|);
    FindAt(x, c, |b|);
    assert x[|a| + 1..] == restA && x[|b| + 1..] == restB;
  }

  /** Evenly spaced old and new words have no quote that neither has. */
  lemma QuoteStaysOut(d: Dialect, inner: string, c: char)
    requires CleanDialect(d) && IsQuote(c) && c !in inner
    ensures c !in Join(AddMissing(Tokens(inner), d.Wanted()), " ")
  {
    var tokens := Tokens(inner);
    var all := AddMissing(tokens, d.Wanted());
    AddMissingMembers(tokens, d.Wanted());
    forall i | 0 <= i < |all| ensures c !in all[i] {
      assert all[i] in all;
      if all[i] in tokens {
        var k :| 0 <= k < |tokens| && tokens[k] == all[i];
        if c in all[i] {
          TokenCharacters(inner, k, c);
        }
      }
    }
    JoinExcludes(all, c);
  }

  /** Joined words are as long as they are only if none is missing. */
  lemma NothingAdded(d: Dialect, tokens: seq<string>)
    requires CleanDialect(d) && Words(tokens)
    ensures Join(AddMissing(tokens, d.Wanted()), " ") == Join(tokens, " ") <==>
      forall w | w in d.Wanted() :: w in tokens
  {
    hide Join;
    WantedAreWords(d);
    AddMissingWords(tokens, d.Wanted());
    TokensOfJoin(tokens);
    TokensOfJoin(AddMissing(tokens, d.Wanted()));
    AddMissingFixed(tokens, d.Wanted());
  }

  /** A quoted text grown at its end is another quoted text with the same tail only if neither has grown. */
  lemma GrownQuote(key: string, c: char, a: string, b: string, rest: string, more: string)
    requires c !in a && c !in b
    ensures key + ([c] + a + ([c] + rest)) == key + (([c] + b + ([c] + rest)) + more) <==> a == b && more == ""
  {
    var x, y := [c] + a + ([c] + rest), ([c] + b + ([c] + rest)) + more;
    if key + x == key + y {
      assert x == (key + x)[|key|..] == (key + y)[|key|..] == y;
      assert x[1..] == a + ([c] + rest) && y[1..] == b + ([c] + (rest + more));
      UpToFirst(a, b, c, rest, rest + more);
      assert |rest + more| == |rest| + |more|;
    } else if more == "" {
      assert y == [c] + b + ([c] + rest);
    }
  }

  /** On a line that is not steady. */
  lemma EditTwiceUnsteady(p: seq<string>, q: seq<string>, line: string)
    requires CleanDialect(Dialect.Grub(p)) && CleanDialect(Dialect.Grub(q)) && CleanDialect(Dialect.Grub(p + q))
    requires IsTarget(Dialect.Grub(p), line) && BlankThenQuote(line)
    ensures Edit(Dialect.Grub(p), line).Some?
    ensures Edit(Dialect.Grub(q), Edit(Dialect.Grub(p), line).value) == Edit(Dialect.Grub(p + q), line) <==>
      QuotesAll(Dialect.Grub(q), line) && forall w | w in q :: w in Tokens(ValueOf(line)) || w in p
  {
    hide Tokens, Join, AddMissing, Find, CleanDialect, Edit, Added, IsTarget, ParseQuotedValue, BlankThenQuote;
    var first, second, both := Dialect.Grub(p), Dialect.Grub(q), Dialect.Grub(p + q);
    var key, s, words := line[..Find(line, '=')], Respaced(line), Tokens(ValueOf(line));
    var atFirst := AddMissing(words, p);
    BlankThenQuoteEdit(first, line);
    BlankThenQuoteEdit(both, line);
    JoinGrows(first, words, s[0]);
    JoinGrows(both, words, s[0]);
    AddMissingTwice(words, p, q);
    AddMissingMembers(words, p);
    assert atFirst != [];
    JoinGrows(second, atFirst, s[0]);
    ParseLonger(s, Added(first, words));
    var value, more := s + Added(first, words), Added(second, atFirst);
    assert s + Added(both, words) == value + more;
    if Requoted(line).None? {
      ViewOfAssignment(key, value);
      EditHasView(second, key + "=" + value);
    } else {
      var quoted := ParseQuotedValue(value).value;
      EditOfAssignment(key, value, quoted, q);
      QuotedFrame(value);
      CompleteIff(second, quoted.inner);
      QuoteStaysOut(second, quoted.inner, s[0]);
      GrownQuote(key + "=", s[0], Join(AddMissing(Tokens(quoted.inner), q), " "), quoted.inner, quoted.tail, more);
      TokensAreWords(ValueOf(line));
      WantedAreWords(first);
      AddMissingWords(words, p);
      NothingAdded(second, atFirst);
    }
  }

  lemma QuotedFrame(value: string)
    requires value != "" && IsQuote(value[0]) && ParseQuotedValue(value).Some?
    ensures var q := ParseQuotedValue(value).value;
      q.quote == [value[0]] && value[0] !in q.inner && value == [value[0]] + q.inner + ([value[0]] + q.tail)
  {
    QuotedParts(value);
  }

  lemma EditTwiceIff(p: seq<string>, q: seq<string>, line: string)
    requires CleanDialect(Dialect.Grub(p)) && CleanDialect(Dialect.Grub(q)) && CleanDialect(Dialect.Grub(p + q))
    requires IsTarget(Dialect.Grub(p), line) && Edit(Dialect.Grub(p), line).Some?
    ensures Edit(Dialect.Grub(q), Edit(Dialect.Grub(p), line).value) == Edit(Dialect.Grub(p + q), line) <==>
      AddsBoth(p, q, line)
  {
    hide Tokens, Join, Edit, IsTarget, CleanDialect, QuotesAll, BlankThenQuote;
    if Steady(Dialect.Grub(p), line) {
      EditTwice(p, q, line);
    } else {
      EditTwiceUnsteady(p, q, line);
    }
  }

  /**
   * Adding `p` and later `q` is adding both at once, on exactly the files that do not end in three
   * newlines and whose target line allows it.
   */
  lemma RewriteTwice(p: seq<string>, q: seq<string>, x: string, t: nat)
    requires CleanDialect(Dialect.Grub(p)) && CleanDialect(Dialect.Grub(q)) && CleanDialect(Dialect.Grub(p + q))
    requires NoCr(x) && SoleTarget(Dialect.Grub(p), Lines(x), t)
    ensures Rewrite(Dialect.Grub(p), x).Success? && Rewrite(Dialect.Grub(p + q), x).Success?
    ensures Rewrite(Dialect.Grub(q), Rewrite(Dialect.Grub(p), x).value) == Rewrite(Dialect.Grub(p + q), x) <==>
      !EndsWithThree(x) && AddsBoth(p, q, Lines(x)[t])
  {
    hide Edit, CleanDialect, Rewrite, Lines, AddsBoth, EndsWithThree, Steady;
    var first, second, both := Dialect.Grub(p), Dialect.Grub(q), Dialect.Grub(p + q);
    var line := Lines(x)[t];
    assert forall l :: IsTarget(first, l) == IsTarget(both, l) == IsTarget(second, l);
    EditHasView(first, line);
    EditHasView(both, line);
    assert SoleTarget(both, Lines(x), t);
    EditTwiceIff(p, q, line);
    AfterFirstPass(first, x, t);
    AfterFirstPass(both, x, t);
    if AddsBoth(p, q, line) {
      TwoPasses(first, second, both, x, t);
    } else {
      PassDiffers(second, Rewrite(first, x).value, Rewrite(both, x).value, t);
    }
  }

  // ----- the unsteady case: a blank and then a quote -----

  lemma AppendOne(w: string, p: string)
    requires Word(w) && w != p
    ensures Join(AddMissing(Tokens(w), [p]), " ") == w + " " + p
  {
    TokensOfWord(w, "");
    assert w + "" == w;
    assert AddMissing([w] + [p], []) == [w, p];
    assert [w, p][1..] == [p];
  }

  /** An unquoted value that is a blank and one word. */
  lemma BlankEdit(key: string, value: string, word: string, p: string)
    requires '=' !in key && Word(word) && word != p && value == " " + word
    ensures Edit(Dialect.Grub([p]), key + "=" + value) == Some(key + "=" + (word + " " + p))
  {
    assert value[0] == ' ' && value[1..] == word;
    assert Tokens(value) == Tokens(word);
    EditOfAssignment(key, value, Quoted("", value, ""), [p]);
    AppendOne(word, p);
    SameText(word + " " + p);
  }

  /** A double-quoted word followed by `tail`. */
  lemma QuotedEdit(key: string, value: string, word: string, tail: string, p: string)
    requires '=' !in key && Word(word) && '"' !in word && word != p
    requires value == "\"" + word + ("\"" + tail)
    ensures Edit(Dialect.Grub([p]), key + "=" + value) == Some(key + "=" + ("\"" + (word + " " + p) + ("\"" + tail)))
  {
    ParseBack('"', word, tail);
    assert ['"'] == "\"";
    EditOfAssignment(key, value, Quoted("\"", word, tail), [p]);
    AppendOne(word, p);
  }

  /**
   * `KEY= "w"` with parameter `p` becomes `KEY="w" p`, and that becomes `KEY="w p" p`, because the
   * second pass reads a quoted value with a tail.
   */
  lemma BlankThenQuoteUnstable(key: string, value: string, quoted: string, w: string, p: string)
    requires '=' !in key && Word(w) && '"' !in w && w != p && quoted != p
    requires quoted == "\"" + w + "\"" && Word(quoted) && value == " " + quoted
    ensures BlankThenQuote(key + "=" + value)
    ensures var d := Dialect.Grub([p]);
      exists once, twice :: Edit(d, key + "=" + value) == Some(once) && Edit(d, once) == Some(twice) && once != twice
  {
    hide Find, Tokens, Join, AddMissing, ParseQuotedValue, GrubView;
    SplitAtEquals(key, value);
    assert TrimStart(value) == quoted;
    assert value[0] == ' ' && value[1..] == quoted && quoted[0] == '"';
    BlankEdit(key, value, quoted, p);
    var second := quoted + " " + p;
    assert second == "\"" + w + ("\"" + (" " + p));
    QuotedEdit(key, second, w, " " + p, p);
    var third := "\"" + (w + " " + p) + ("\"" + (" " + p));
    assert |third| > |second|;
    var once, twice := key + "=" + second, key + "=" + third;
    assert |twice| > |once|;
  }

  // ----- files on which the second pass does change something -----

  /** A file that is one assignment of the variable. */
  lemma OneAssignment(d: Dialect, value: string)
    requires d.Grub? && '\n' !in value && '\r' !in value
    ensures var x := TARGET_VAR + "=" + value; Lines(x) == [x] && NoCr(x) && IsTarget(d, x)
  {
    hide Lines, IsSpace, Find;
    var x := TARGET_VAR + "=" + value;
    TargetVarFacts();
    GrubTargetKey(TARGET_VAR, value);
    SplitNone(x, '\n');
    LinesArePieces(x);
    assert x != "";
  }

  /** `KEY= "w"` as a whole file: it changes again on the second pass. */
  lemma BlankThenQuoteFile(value: string, quoted: string, w: string, p: string)
    requires CleanParam(w) && CleanParam(p) && w != p && quoted == "\"" + w + "\"" && value == " " + quoted
    ensures var d, x := Dialect.Grub([p]), TARGET_VAR + "=" + value;
      Rewrite(d, x).Success? && Rewrite(d, Rewrite(d, x).value) != Rewrite(d, x)
  {
    hide Lines, Find, Tokens, Join, IsTarget, RewriteFrom, Rewrite, Edit, TrimStart;
    var d, x := Dialect.Grub([p]), TARGET_VAR + "=" + value;
    TargetVarFacts();
    assert quoted[0] == '"' && Word(quoted);
    OneAssignment(d, value);
    BlankThenQuoteUnstable(TARGET_VAR, value, quoted, w, p);
    assert SoleTarget(d, Lines(x), 0);
    OnePass(d, x, 0);
    AfterFirstPass(d, x, 0);
    PassDiffers(d, Rewrite(d, x).value, Rewrite(d, x).value, 0);
  }

  /** Of a blank and one word that starts with a quote, the word is what is read again. */
  lemma OneQuotedWord(key: string, value: string, word: string)
    requires '=' !in key && Word(word) && IsQuote(word[0]) && value == " " + word
    ensures BlankThenQuote(key + "=" + value) && Requoted(key + "=" + value) == ParseQuotedValue(word)
    ensures Tokens(value) == [word] && ValueOf(key + "=" + value) == value
  {
    hide Find, ParseQuotedValue;
    SplitAtEquals(key, value);
    assert value[0] == ' ' && value[1..] == word;
    assert TrimStart(value) == word;
    TokensOfWord(word, "");
    assert word + "" == word;
  }

  lemma QuotedWord(quoted: string, w: string)
    requires CleanParam(w) && quoted == "\"" + w + "\""
    ensures Word(quoted) && IsQuote(quoted[0]) && ParseQuotedValue(quoted) == Some(Quoted("\"", w, ""))
    ensures Tokens(w) == [w] && Join([w], " ") == w
  {
    hide Find;
    assert ['"'] == "\"";
    assert quoted == ['"'] + w + (['"'] + "");
    ParseBack('"', w, "");
    TokensOfWord(w, "");
    assert w + "" == w;
    QuoteIsNoSpace('"');
  }

  /** The word being the parameter itself, `KEY= "p"` settles after one pass. */
  lemma BlankThenQuoteSettledFile(value: string, quoted: string, p: string)
    requires CleanParam(p) && quoted == "\"" + p + "\"" && value == " " + quoted
    ensures var d, x := Dialect.Grub([p]), TARGET_VAR + "=" + value;
      && BlankThenQuote(x) && Rewrite(d, x).Success?
      && Rewrite(d, Rewrite(d, x).value) == Rewrite(d, x)
  {
    hide Lines, Find, IsTarget, RewriteFrom, Rewrite, Edit, EndsWithThree, TrimStart, Tokens, Join, ParseQuotedValue;
    hide TrailingNewlines, BlankThenQuote, Requoted;
    var d, x := Dialect.Grub([p]), TARGET_VAR + "=" + value;
    TargetVarFacts();
    QuotedWord(quoted, p);
    OneQuotedWord(TARGET_VAR, value, quoted);
    OneTargetFile(d, value);
    NotThree(x);
    IdempotentIff(d, x);
  }

  /** A file that is one blank-then-quote assignment is accepted. */
  lemma OneTargetFile(d: Dialect, value: string)
    requires d.Grub? && CleanDialect(d) && '\n' !in value && '\r' !in value && BlankThenQuote(TARGET_VAR + "=" + value)
    ensures var x := TARGET_VAR + "=" + value;
      && Lines(x) == [x] && NoCr(x) && '\n' !in x && SoleTarget(d, Lines(x), 0) && FirstTarget(d, Lines(x)) == 0
      && Rewrite(d, x).Success?
  {
    hide Lines, Find, IsTarget, RewriteFrom, Rewrite, Edit, BlankThenQuote;
    var x := TARGET_VAR + "=" + value;
    TargetVarFacts();
    OneAssignment(d, value);
    BlankThenQuoteEdit(d, x);
    assert SoleTarget(d, Lines(x), 0);
    OnePass(d, x, 0);
  }

  /** `KEY= "w`, with a quote that is never closed: the first pass accepts the file, the second does not. */
  lemma UnclosedQuoteFile(value: string, open: string, w: string, p: string)
    requires CleanParam(w) && CleanParam(p) && open == "\"" + w && value == " " + open
    ensures var d, x := Dialect.Grub([p]), TARGET_VAR + "=" + value;
      Rewrite(d, x).Success? && Rewrite(d, Rewrite(d, x).value).Failure?
  {
    hide Lines, IsTarget, RewriteFrom, Rewrite, Edit, TrimStart, Tokens, Join, BlankThenQuote;
    var d, x := Dialect.Grub([p]), TARGET_VAR + "=" + value;
    TargetVarFacts();
    QuoteIsNoSpace('"');
    assert open[0] == '"' && open[1..] == w;
    assert Word(open);
    OneQuotedWord(TARGET_VAR, value, open);
    OneTargetFile(d, value);
    assert Find(w, '"') == |w|;
    SecondPassIff(d, x);
  }

  lemma NotThree(x: string)
    requires '\n' !in x
    ensures !EndsWithThree(x)
  {
    assert |x| >= 3 ==> x[|x| - 3..][0] == x[|x| - 3];
  }

  lemma ThreeLines(line: string)
    ensures Join([line, "", ""], "\n") + "\n" == line + "\n\n\n"
  {
    assert [line, "", ""][1..] == ["", ""];
    assert ["", ""][1..] == [""];
    assert "" + "\n" + "" == "\n";
  }

  /** A file that ends in three newlines: the second pass drops another one. */
  lemma ThreeNewlinesFile(value: string, line: string, p: string)
    requires CleanParam(p) && value == "\"\"" && line == TARGET_VAR + "=" + value
    ensures var d, x := Dialect.Grub([p]), line + "\n\n\n";
      && SoleTarget(d, Lines(x), 0) && Rewrite(d, x).Success?
      && Rewrite(d, Rewrite(d, x).value) != Rewrite(d, x)
  {
    hide Lines, Find, Tokens, IsTarget, RewriteFrom, Rewrite, TrimStart, IsSpace, Split, Join;
    var d, x := Dialect.Grub([p]), line + "\n\n\n";
    var lines := [line, "", ""];
    TargetVarFacts();
    OneAssignment(d, value);
    ThreeLines(line);
    assert forall i | 0 <= i < |lines| :: Unbroken(lines[i]);
    LinesOfJoin(lines);
    assert Lines(x) == lines;
    SplitAtEquals(TARGET_VAR, value);
    assert value == ['"'] + "" + (['"'] + "");
    ParseBack('"', "", "");
    EditOfAssignment(TARGET_VAR, value, Quoted("\"", "", ""), [p]);
    assert ['"'] == "\"";
    if IsTarget(d, "") {
      TargetNonBlank(d, "");
    }
    assert SoleTarget(d, lines, 0);
    assert x[|x| - 3..] == "\n\n\n";
    OnePass(d, x, 0);
    IdempotentIff(d, x);
  }
}
