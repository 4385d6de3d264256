/** Booting with a rewritten GRUB file: which words of it reach the boot line. */
module Booting {
  import opened Text
  import opened LineView
  import opened Requoting
  import opened LineRewriter
  import opened Grub

  /** The words of a line, if it can be read. */
  function WordsOf(line: string): seq<string> {
    if GrubView(line).None? then [] else GrubView(line).value.tokens
  }

  /** The words of every GRUB assignment in the file are words of the boot line. */
  ghost predicate BootedWith(text: string, cmdline: string) {
    var lines := Lines(text);
    forall t, w | 0 <= t < |lines| && IsTarget(Dialect.Grub([]), lines[t]) && w in WordsOf(lines[t]) ::
      w in Tokens(cmdline)
  }

  /** The words of the target line a rewrite leaves, read off the file before it. */
  function WordsLeft(params: seq<string>, x: string): seq<string> {
    var d, lines := Dialect.Grub(params), Lines(x);
    var t := FirstTarget(d, lines);
    if t == |lines| then params
    else if ViewOf(d, lines[t]).None? || ReadBack(d, lines[t]).None? then []
    else ReadBack(d, lines[t]).value.tokens
  }

  /**
   * The rewritten file has the parameter where a boot finds it: always, unless the target line was a
   * blank and then a quote; then only if the words already closed that quote, with the parameter inside.
   */
  predicate KeepsParam(params: seq<string>, x: string, p: string) {
    var d, lines := Dialect.Grub(params), Lines(x);
    var t := FirstTarget(d, lines);
    || t == |lines|
    || Steady(d, lines[t])
    || (Requoted(lines[t]).Some? && p in Tokens(Requoted(lines[t]).value.inner))
  }

  lemma TargetIgnoresParams(p: seq<string>, line: string)
    ensures IsTarget(Dialect.Grub(p), line) <==> IsTarget(Dialect.Grub([]), line)
    ensures ViewOf(Dialect.Grub(p), line) == GrubView(line)
  {
  }

  lemma ViewWordsAreWords(line: string)
    ensures Words(WordsOf(line))
  {
    if GrubView(line).Some? {
      ViewTokensAreWords(Dialect.Grub([]), line);
    }
  }

  /** A file with one target is booted with that target's words. */
  lemma OneTargetBoots(params: seq<string>, y: string, t: nat, cmdline: string)
    requires t < |Lines(y)|
    requires forall i | 0 <= i < |Lines(y)| :: IsTarget(Dialect.Grub(params), Lines(y)[i]) <==> i == t
    ensures BootedWith(y, cmdline) <==> forall w | w in WordsOf(Lines(y)[t]) :: w in Tokens(cmdline)
  {
    hide IsTarget, WordsOf, Tokens, Lines;
    var lines := Lines(y);
    forall i | 0 <= i < |lines|
      ensures IsTarget(Dialect.Grub([]), lines[i]) <==> i == t
    {
      TargetIgnoresParams(params, lines[i]);
    }
  }

  /** A boot with the rewritten file is a boot with exactly the words that were left. */
  lemma BootsWithWordsLeft(params: seq<string>, x: string, cmdline: string)
    requires CleanDialect(Dialect.Grub(params)) && NoCr(x) && Rewrite(Dialect.Grub(params), x).Success?
    ensures BootedWith(Rewrite(Dialect.Grub(params), x).value, cmdline) <==>
      forall w | w in WordsLeft(params, x) :: w in Tokens(cmdline)
    ensures Words(WordsLeft(params, x))
  {
    hide IsTarget, Tokens, Lines, CleanDialect, RewriteFrom, Edit, ReadBack, GrubView, Extra, BootedWith;
    var d, lines, y := Dialect.Grub(params), Lines(x), Rewrite(Dialect.Grub(params), x).value;
    var t := FirstTarget(d, lines);
    AcceptedFile(d, x);
    if NoTarget(d, lines) {
      AppendMeaning(d, x);
      EditHasView(d, Lines(y)[t]);
      assert forall i | 0 <= i < |Lines(y)| :: IsTarget(d, Lines(y)[i]) <==> i == t;
    } else {
      RewriteMeaning(d, x, t);
      EditHasView(d, lines[t]);
    }
    TargetIgnoresParams(params, Lines(y)[t]);
    assert WordsOf(Lines(y)[t]) == WordsLeft(params, x);
    OneTargetBoots(params, y, t, cmdline);
    ViewWordsAreWords(Lines(y)[t]);
  }

  lemma LeftIfKept(params: seq<string>, x: string, p: string)
    requires CleanDialect(Dialect.Grub(params)) && Rewrite(Dialect.Grub(params), x).Success? && p in params
    ensures p in WordsLeft(params, x) <==> KeepsParam(params, x, p)
  {
    hide IsTarget, Tokens, Lines, CleanDialect, Rewrite, Edit, Requoted;
    var d, lines := Dialect.Grub(params), Lines(x);
    var t := FirstTarget(d, lines);
    AcceptedFile(d, x);
    if t < |lines| {
      EditHasView(d, lines[t]);
      AddMissingMembers(ViewOf(d, lines[t]).value.tokens, params);
    }
  }

  /** Every boot with the rewritten file has the parameter, exactly if the file keeps it. */
  lemma RewrittenFileBoots(params: seq<string>, x: string, p: string)
    requires CleanDialect(Dialect.Grub(params)) && NoCr(x) && Rewrite(Dialect.Grub(params), x).Success? && p in params
    ensures (forall cmdline | BootedWith(Rewrite(Dialect.Grub(params), x).value, cmdline) :: p in Tokens(cmdline)) <==>
      KeepsParam(params, x, p)
  {
    hide BootedWith, Tokens, KeepsParam, WordsLeft, Rewrite, CleanDialect;
    var y, words := Rewrite(Dialect.Grub(params), x).value, WordsLeft(params, x);
    LeftIfKept(params, x, p);
    forall cmdline
      ensures BootedWith(y, cmdline) <==> forall w | w in words :: w in Tokens(cmdline)
    {
      BootsWithWordsLeft(params, x, cmdline);
    }
    BootsWithWordsLeft(params, x, "");
    TokensOfJoin(words);
    assert BootedWith(y, Join(words, " "));
  }

  /** `KEY= "w"` becomes `KEY="w" p`, and a boot with the word in the quotes lacks `p`. */
  lemma BlankThenQuoteBoots(value: string, quoted: string, w: string, p: string)
    requires CleanParam(w) && CleanParam(p) && w != p && quoted == "\"" + w + "\"" && value == " " + quoted
    ensures var d, x := Dialect.Grub([p]), TARGET_VAR + "=" + value;
      Rewrite(d, x).Success? && BootedWith(Rewrite(d, x).value, w) && p !in Tokens(w)
  {
    hide BootedWith, Rewrite, Lines, IsTarget, Tokens, Join, Edit, Requoted, TrimStart, BlankThenQuote;
    hide ParseQuotedValue, Find;
    var d, x := Dialect.Grub([p]), TARGET_VAR + "=" + value;
    TargetVarFacts();
    QuotedWord(quoted, w);
    OneQuotedWord(TARGET_VAR, value, quoted);
    OneTargetFile(d, value);
    BootsWithWordsLeft([p], x, w);
    EditHasView(d, x);
    assert ReadBack(d, x).value.tokens == [w];
  }
}
