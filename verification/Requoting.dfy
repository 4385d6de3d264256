/**
 * Reading an edited line back.
 *
 * An edit keeps the frame of a line, with one exception. The value of a GRUB line may be a blank and
 * then a quote. It is taken as unquoted, the edit spaces its words evenly, and then the quote comes
 * first: read back, the value is quoted, or does not parse at all.
 */
module Requoting {
  import opened Wrappers
  import opened Text
  import opened LineView

  // ----- what becomes of a blank-then-quote value, read off the line -----

  /** The words of the value, evenly spaced. */
  function Respaced(line: string): string {
    Join(Tokens(ValueOf(line)), " ")
  }

  /** They read as a quoted value, if they close the quote they open. */
  function Requoted(line: string): Option<Quoted> {
    ParseQuotedValue(Respaced(line))
  }

  /** The edited line can be read back. */
  predicate Reparses(d: Dialect, line: string) {
    Steady(d, line) || Requoted(line).Some?
  }

  /** The respaced words quote evenly spaced words that already hold every parameter. */
  predicate QuotesAll(d: Dialect, line: string) {
    && Requoted(line).Some?
    && Join(Tokens(Requoted(line).value.inner), " ") == Requoted(line).value.inner
    && forall w | w in d.Wanted() :: w in Tokens(Requoted(line).value.inner)
  }

  /** The edited line is its own edit. */
  predicate SettlesAtOnce(d: Dialect, line: string) {
    Steady(d, line) || QuotesAll(d, line)
  }

  /** What an edit appends to the words. */
  function Added(d: Dialect, tokens: seq<string>): string {
    var all := AddMissing(tokens, d.Wanted());
    if |all| <= |tokens| then "" else " " + Join(all[|tokens|..], " ")
  }

  /** The view of the edited line. */
  function ReadBack(d: Dialect, line: string): Option<View>
    requires ViewOf(d, line).Some?
  {
    var v := ViewOf(d, line).value;
    if Steady(d, line) then Some(v.(tokens := AddMissing(v.tokens, d.Wanted())))
    else
      match Requoted(line)
      case None => None
      case Some(q) =>
        Some(View(line[..Find(line, '=')] + "=" + q.quote, Tokens(q.inner), q.quote + (q.tail + Added(d, v.tokens))))
  }

  // ----- the edit of a blank-then-quote line -----

  lemma GrubKeyStays(d: Dialect, line: string)
    requires d.Grub? && IsTarget(d, line) && Edit(d, line).Some?
    ensures IsTarget(d, Edit(d, line).value)
  {
    hide Tokens, IsSpace, Join, AddMissing, Trim, TrimStart, ParseQuotedValue;
    var eq := Find(line, '=');
    var q := ParseQuotedValue(line[eq + 1..]).value;
    var joined := Join(AddMissing(Tokens(q.inner), d.Wanted()), " ");
    var value := q.quote + joined + (q.quote + q.tail);
    assert line == line[..eq] + "=" + line[eq + 1..];
    GrubTargetKey(line[..eq], line[eq + 1..]);
    GrubTargetKey(line[..eq], value);
    RenderAround(line[..eq] + "=", q.quote, joined, q.quote + q.tail);
  }

  lemma EditOfAssignment(key: string, value: string, q: Quoted, params: seq<string>)
    requires '=' !in key && ParseQuotedValue(value) == Some(q)
    ensures Edit(Dialect.Grub(params), key + "=" + value)
         == Some(key + "=" + (q.quote + Join(AddMissing(Tokens(q.inner), params), " ") + (q.quote + q.tail)))
  {
    SplitAtEquals(key, value);
    RenderAround(key + "=", q.quote, Join(AddMissing(Tokens(q.inner), params), " "), q.quote + q.tail);
  }

  lemma SameText(s: string)
    ensures "" + s + ("" + "") == s == s + ""
  {
  }

  lemma JoinAppend(front: seq<string>, back: seq<string>)
    requires front != [] && back != []
    ensures Join(front + back, " ") == Join(front, " ") + (" " + Join(back, " "))
  {
    var all := front + back;
    if |front| == 1 {
      assert all[1..] == back;
    } else {
      assert all[1..] == front[1..] + back;
      JoinAppend(front[1..], back);
      var head, mid, tail := front[0] + " ", Join(front[1..], " "), " " + Join(back, " ");
      assert head + (mid + tail) == (head + mid) + tail;
    }
  }

  /** A missing parameter is appended, and nothing else is. */
  lemma AddedAreWanted(tokens: seq<string>, wanted: seq<string>)
    ensures var all := AddMissing(tokens, wanted);
      tokens <= all && forall i | |tokens| <= i < |all| :: all[i] in wanted
    decreases |wanted|
  {
    if wanted != [] {
      AddedAreWanted(if wanted[0] in tokens then tokens else tokens + [wanted[0]], wanted[1..]);
    }
  }

  /** The joined words grow by a text free of quotes. */
  lemma JoinGrows(d: Dialect, tokens: seq<string>, quote: char)
    requires CleanDialect(d) && tokens != [] && IsQuote(quote)
    ensures Join(AddMissing(tokens, d.Wanted()), " ") == Join(tokens, " ") + Added(d, tokens)
    ensures quote !in Added(d, tokens)
  {
    hide Join;
    var all := AddMissing(tokens, d.Wanted());
    AddedAreWanted(tokens, d.Wanted());
    var added := all[|tokens|..];
    assert all == tokens + added;
    if added == [] {
      assert all == tokens;
      SameText(Join(tokens, " "));
    } else {
      JoinAppend(tokens, added);
      assert forall i | 0 <= i < |added| :: CleanParam(added[i]);
      JoinExcludes(added, quote);
    }
  }

  /** Text without the quote that opens a value, put after the value, joins its tail. */
  lemma ParseLonger(value: string, more: string)
    requires value != "" && IsQuote(value[0]) && value[0] !in more
    ensures ParseQuotedValue(value + more) ==
      match ParseQuotedValue(value)
      case None => None
      case Some(q) => Some(q.(tail := q.tail + more))
  {
    var body, longer := value[1..], (value + more)[1..];
    var close := Find(body, value[0]);
    assert longer == body + more;
    if close < |body| {
      assert longer[..close] == body[..close];
      FindAt(longer, value[0], close);
      assert (value + more)[1..1 + close] == value[1..1 + close];
      assert (value + more)[close + 2..] == value[close + 2..] + more;
    } else {
      assert body[..close] == body;
      assert value[0] !in longer;
    }
  }

  /** Words joined with the missing ones are the text they came from exactly if it is complete and evenly spaced. */
  lemma CompleteIff(d: Dialect, inner: string)
    requires CleanDialect(d)
    ensures Join(AddMissing(Tokens(inner), d.Wanted()), " ") == inner <==>
      Join(Tokens(inner), " ") == inner && forall w | w in d.Wanted() :: w in Tokens(inner)
  {
    hide Tokens, Join, AddMissing, CleanDialect;
    var tokens := Tokens(inner);
    AddMissingFixed(tokens, d.Wanted());
    WantedAreWords(d);
    TokensAreWords(inner);
    AddMissingWords(tokens, d.Wanted());
    TokensOfJoin(AddMissing(tokens, d.Wanted()));
  }

  /** A quoted value is its own edit exactly when its words are complete and evenly spaced. */
  lemma QuotedFixedIff(d: Dialect, key: string, value: string)
    requires CleanDialect(d) && d.Grub? && '=' !in key && value != "" && IsQuote(value[0])
    ensures var q := ParseQuotedValue(value); var line := key + "=" + value;
      Edit(d, line) == Some(line) <==>
        && q.Some?
        && Join(Tokens(q.value.inner), " ") == q.value.inner
        && forall w | w in d.Wanted() :: w in Tokens(q.value.inner)
  {
    hide Tokens, Join, AddMissing, Find, CleanDialect;
    SplitAtEquals(key, value);
    if ParseQuotedValue(value).Some? {
      var q := ParseQuotedValue(value).value;
      var all := AddMissing(Tokens(q.inner), d.Wanted());
      EditOfAssignment(key, value, q, d.params);
      QuotedParts(value);
      SameAround(key + "=", q.quote, Join(all, " "), q.inner, q.quote + q.tail);
      CompleteIff(d, q.inner);
    }
  }

  lemma QuotedParts(value: string)
    requires value != "" && IsQuote(value[0]) && ParseQuotedValue(value).Some?
    ensures var q := ParseQuotedValue(value).value; value == q.quote + q.inner + (q.quote + q.tail)
  {
    var close := Find(value[1..], value[0]);
    assert value[1 + close] == value[0];
  }

  lemma SameAround(key: string, open: string, a: string, b: string, end: string)
    ensures key + (open + a + end) == key + (open + b + end) <==> a == b
  {
    var x, y := key + (open + a + end), key + (open + b + end);
    if x == y {
      assert |a| == |b|;
      var n := |key| + |open|;
      assert a == x[n..n + |a|] && b == y[n..n + |b|];
    }
  }

  lemma CutAt(line: string, eq: nat)
    requires eq < |line| && line[eq] == '='
    ensures line == line[..eq] + "=" + line[eq + 1..]
  {
  }

  /** The first edit: the words, then the missing parameters, with no quotes around. */
  lemma BlankThenQuoteEdit(d: Dialect, line: string)
    requires d.Grub? && CleanDialect(d) && BlankThenQuote(line)
    ensures var s, words := Respaced(line), Tokens(ValueOf(line));
      && s != "" && IsQuote(s[0]) && s[0] !in Added(d, words) && Find(line, '=') < |line|
      && ViewOf(d, line).Some? && ViewOf(d, line).value.tokens == words && words != []
      && Edit(d, line) == Some(line[..Find(line, '=')] + "=" + (s + Added(d, words)))
  {
    hide Tokens, Join, AddMissing, IsSpace, CleanDialect, Added, ParseQuotedValue, GrubView, Edit, Find, Words;
    var key, value := line[..Find(line, '=')], ValueOf(line);
    var words := Tokens(value);
    UnquotedView(line);
    BlankThenQuoteWords(value);
    TokensAreWords(value);
    JoinOfWordsIsTrimmed(words);
    JoinGrows(d, words, Join(words, " ")[0]);
    CutAt(line, Find(line, '='));
    assert value == line[Find(line, '=') + 1..];
    EditOfAssignment(key, value, Quoted("", value, ""), d.params);
    SameText(Join(AddMissing(words, d.params), " "));
  }

  // ----- reading it back -----

  lemma ViewOfAssignment(key: string, value: string)
    requires '=' !in key
    ensures GrubView(key + "=" + value) ==
      match ParseQuotedValue(value)
      case None => None
      case Some(q) => Some(View(key + "=" + q.quote, Tokens(q.inner), q.quote + q.tail))
  {
    hide Tokens, Find, ParseQuotedValue;
    SplitAtEquals(key, value);
  }

  /** An edited line is a target again, no blank-then-quote line, and its view is known beforehand. */
  lemma EditReadBack(d: Dialect, line: string)
    requires CleanDialect(d) && IsTarget(d, line) && ViewOf(d, line).Some?
    ensures Edit(d, line).Some?
    ensures var e := Edit(d, line).value; IsTarget(d, e) && Steady(d, e) && ViewOf(d, e) == ReadBack(d, line)
    ensures ReadBack(d, line).Some? <==> Reparses(d, line)
  {
    hide Tokens, Join, Edit, IsTarget, CleanDialect, Find, IsSpace, AddMissing;
    EditHasView(d, line);
    EditedSteady(d, line);
    if Steady(d, line) {
      EditMeaning(d, line);
    } else {
      BlankThenQuoteEdit(d, line);
      GrubKeyStays(d, line);
      ParseLonger(Respaced(line), Added(d, Tokens(ValueOf(line))));
      ViewOfAssignment(line[..Find(line, '=')], Respaced(line) + Added(d, Tokens(ValueOf(line))));
    }
  }

  /** The edited line has the old frame, with the old words and then the missing ones, exactly if it is steady. */
  lemma EditMeaningIff(d: Dialect, line: string)
    requires CleanDialect(d) && IsTarget(d, line) && ViewOf(d, line).Some?
    ensures Edit(d, line).Some?
    ensures var v, e := ViewOf(d, line).value, Edit(d, line).value;
      && IsTarget(d, e)
      && (ViewOf(d, e) == Some(v.(tokens := AddMissing(v.tokens, d.Wanted()))) <==> Steady(d, line))
  {
    hide Tokens, Join, IsTarget, CleanDialect, IsSpace, AddMissing;
    EditReadBack(d, line);
    if !Steady(d, line) {
      BlankThenQuoteEdit(d, line);
      if Requoted(line).Some? {
        UnsteadyFrame(line);
      }
    }
  }

  /** The quote moves into the frame. */
  lemma UnsteadyFrame(line: string)
    requires BlankThenQuote(line) && Requoted(line).Some? && Respaced(line) != "" && IsQuote(Respaced(line)[0])
    ensures GrubView(line).Some?
    ensures GrubView(line).value.prefix != line[..Find(line, '=')] + "=" + Requoted(line).value.quote
  {
    hide Tokens, Join, Find;
    UnquotedView(line);
    assert |Requoted(line).value.quote| == 1;
  }

  /** An edited value never starts with a blank. */
  lemma EditedSteady(d: Dialect, line: string)
    requires CleanDialect(d) && IsTarget(d, line) && Edit(d, line).Some?
    ensures Steady(d, Edit(d, line).value)
  {
    hide Tokens, IsSpace, Join, AddMissing;
    if d.Grub? {
      var eq := Find(line, '=');
      var q := ParseQuotedValue(line[eq + 1..]).value;
      var tokens := AddMissing(Tokens(q.inner), d.Wanted());
      var value := q.quote + Join(tokens, " ") + (q.quote + q.tail);
      RenderAround(line[..eq] + "=", q.quote, Join(tokens, " "), q.quote + q.tail);
      SplitAtEquals(line[..eq], value);
      TokensAreWords(q.inner);
      WantedAreWords(d);
      AddMissingWords(Tokens(q.inner), d.Wanted());
      AddMissingMembers(Tokens(q.inner), d.Wanted());
      assert d.Wanted()[0] in tokens;
      JoinOfWordsIsTrimmed(tokens);
      assert value[0] == if q.quote != "" then q.quote[0] else Join(tokens, " ")[0];
      if q.quote != "" {
        QuoteIsNoSpace(q.quote[0]);
      }
    }
  }

  /** The edited line is its own edit exactly when the line settles at once. */
  lemma SettledOnceIff(d: Dialect, line: string)
    requires CleanDialect(d) && IsTarget(d, line) && Edit(d, line).Some?
    ensures var e := Edit(d, line).value; Edit(d, e) == Some(e) <==> SettlesAtOnce(d, line)
  {
    hide Tokens, Join, Edit, IsTarget, CleanDialect, IsSpace, Find, Added;
    if Steady(d, line) {
      EditStable(d, line);
    } else {
      BlankThenQuoteEdit(d, line);
      var more := Added(d, Tokens(ValueOf(line)));
      ParseLonger(Respaced(line), more);
      QuotedFixedIff(d, line[..Find(line, '=')], Respaced(line) + more);
    }
  }
}
