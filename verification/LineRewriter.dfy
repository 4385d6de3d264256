/** Rewriting a whole configuration file: the scheme shared by the three line-oriented writers. */
module LineRewriter {
  import opened Wrappers
  import opened Records
  import opened Text
  import opened LineView
  import opened Requoting

  // ----- specification -----

  /** The output lines from line `idx` on, once `found` says whether a target has been seen. */
  function RewriteFrom(d: Dialect, lines: seq<string>, idx: nat, found: bool): Result<seq<string>, WriterError>
    requires idx <= |lines|
    decreases |lines| - idx
  {
    if idx == |lines| then Success(if found then [] else [Extra(d)])
    else if IsTarget(d, lines[idx]) then
      if found || Edit(d, lines[idx]).None? then Failure(MalformedInput(idx + 1))
      else Prepend([Edit(d, lines[idx]).value], RewriteFrom(d, lines, idx + 1, true))
    else Prepend([lines[idx]], RewriteFrom(d, lines, idx + 1, found))
  }

  function Prepend(front: seq<string>, r: Result<seq<string>, WriterError>): Result<seq<string>, WriterError> {
    match r
    case Success(rest) => Success(front + rest)
    case Failure(e) => Failure(e)
  }

  /** Rejoins, restoring the final terminator only if the joined text does not already end with one. */
  function Finish(input: string, lines: seq<string>): string {
    var output := Join(lines, "\n");
    if EndsWith(input, '\n') && !EndsWith(output, '\n') then output + "\n" else output
  }

  function Rewrite(d: Dialect, input: string): Result<string, WriterError> {
    if d.Wanted() == [] then Failure(EmptyParams)
    else
      match RewriteFrom(d, Lines(input), 0, false)
      case Failure(e) => Failure(e)
      case Success(lines) => Success(Finish(input, lines))
  }

  lemma PrependTwice(a: seq<string>, b: seq<string>, r: Result<seq<string>, WriterError>)
    ensures Prepend(a, Prepend(b, r)) == Prepend(a + b, r)
  {
    if r.Success? {
      assert a + (b + r.value) == a + b + r.value;
    }
  }

  lemma PrependEmpty(r: Result<seq<string>, WriterError>)
    ensures Prepend([], r) == r
  {
    assert r.Success? ==> [] + r.value == r.value;
  }

  // ----- shape of the output -----

  function FirstTarget(d: Dialect, lines: seq<string>): (t: nat)
    ensures t <= |lines|
    ensures t < |lines| ==> IsTarget(d, lines[t])
    ensures forall i | 0 <= i < t :: !IsTarget(d, lines[i])
  {
    if lines == [] then 0
    else if IsTarget(d, lines[0]) then 0
    else 1 + FirstTarget(d, lines[1..])
  }

  /** The lines hold exactly one target, at `t`, and it can be edited. */
  ghost predicate SoleTarget(d: Dialect, lines: seq<string>, t: nat) {
    && t < |lines| && IsTarget(d, lines[t]) && Edit(d, lines[t]).Some?
    && forall i | 0 <= i < |lines| && i != t :: !IsTarget(d, lines[i])
  }

  ghost predicate NoTarget(d: Dialect, lines: seq<string>) {
    forall i | 0 <= i < |lines| :: !IsTarget(d, lines[i])
  }

  lemma AfterTarget(d: Dialect, lines: seq<string>, idx: nat)
    requires idx <= |lines|
    ensures RewriteFrom(d, lines, idx, true).Success? <==> forall i | idx <= i < |lines| :: !IsTarget(d, lines[i])
    ensures RewriteFrom(d, lines, idx, true).Success? ==> RewriteFrom(d, lines, idx, true).value == lines[idx..]
    decreases |lines| - idx
  {
    if idx < |lines| {
      AfterTarget(d, lines, idx + 1);
    }
  }

  lemma UpToTarget(d: Dialect, lines: seq<string>, idx: nat)
    requires idx <= FirstTarget(d, lines)
    ensures RewriteFrom(d, lines, 0, false) == Prepend(lines[..idx], RewriteFrom(d, lines, idx, false))
  {
    if idx > 0 {
      UpToTarget(d, lines, idx - 1);
      PrependTwice(lines[..idx - 1], [lines[idx - 1]], RewriteFrom(d, lines, idx, false));
      assert lines[..idx - 1] + [lines[idx - 1]] == lines[..idx];
    } else {
      var r := RewriteFrom(d, lines, 0, false);
      assert r.Success? ==> [] + r.value == r.value;
    }
  }

  /**
   * The rewrite succeeds exactly when there is no target, or a single one that parses. Then every
   * other line is unchanged and in place, and the target is edited, or appended if there was none.
   */
  lemma RewriteLines(d: Dialect, lines: seq<string>)
    ensures var t := FirstTarget(d, lines); var r := RewriteFrom(d, lines, 0, false);
      && (r.Success? <==> NoTarget(d, lines) || SoleTarget(d, lines, t))
      && (NoTarget(d, lines) ==> r == Success(lines + [Extra(d)]))
      && (SoleTarget(d, lines, t) ==> r == Success(lines[t := Edit(d, lines[t]).value]))
  {
    var t := FirstTarget(d, lines);
    if t < |lines| {
      RewriteWithTarget(d, lines, t);
    } else {
      RewriteWithoutTarget(d, lines);
    }
  }

  lemma RewriteWithoutTarget(d: Dialect, lines: seq<string>)
    requires FirstTarget(d, lines) == |lines|
    ensures RewriteFrom(d, lines, 0, false) == Success(lines + [Extra(d)])
  {
    UpToTarget(d, lines, |lines|);
    assert lines[..|lines|] == lines;
  }

  lemma RewriteWithTarget(d: Dialect, lines: seq<string>, t: nat)
    requires t == FirstTarget(d, lines) < |lines|
    ensures var r := RewriteFrom(d, lines, 0, false);
      && (r.Success? <==> SoleTarget(d, lines, t))
      && (r.Success? ==> r == Success(lines[t := Edit(d, lines[t]).value]))
  {
    UpToTarget(d, lines, t);
    AfterTarget(d, lines, t + 1);
    SpliceTarget(d, lines, t);
  }

  lemma SpliceTarget(d: Dialect, lines: seq<string>, t: nat)
    requires t < |lines| && IsTarget(d, lines[t])
    requires RewriteFrom(d, lines, t + 1, true).Success? ==> RewriteFrom(d, lines, t + 1, true).value == lines[t + 1..]
    ensures var r := Prepend(lines[..t], RewriteFrom(d, lines, t, false));
      && (r.Success? <==> Edit(d, lines[t]).Some? && RewriteFrom(d, lines, t + 1, true).Success?)
      && (r.Success? ==> r.value == lines[t := Edit(d, lines[t]).value])
  {
    hide IsTarget, Edit, Extra;
  }

  // ----- passes over the same file -----

  ghost predicate EndsWithThree(s: string) {
    |s| >= 3 && s[|s| - 3..] == "\n\n\n"
  }

  /** A text of the given lines, with or without a final terminator. */
  function TextOf(lines: seq<string>, terminated: bool): string {
    Join(lines, "\n") + (if terminated then "\n" else "")
  }

  /** The lines a pass leaves: a terminated text loses its last line if that is blank. */
  function Kept(lines: seq<string>, terminated: bool): seq<string> {
    if terminated && lines != [] && lines[|lines| - 1] == "" then lines[..|lines| - 1] else lines
  }

  lemma FinishText(input: string, lines: seq<string>)
    requires |lines| >= 1 && AllUnbroken(lines)
    requires lines[|lines| - 1] == "" ==> |lines| >= 2 && EndsWith(input, '\n')
    ensures var terminated := EndsWith(input, '\n');
      Finish(input, lines) == TextOf(Kept(lines, terminated), terminated)
  {
    JoinEndsWith(lines);
    LastOfJoin(lines, "\n");
  }

  /** Reading back a text whose last line counts. */
  lemma LinesOfTextOf(lines: seq<string>, terminated: bool)
    requires lines != [] && AllUnbroken(lines)
    requires terminated || lines[|lines| - 1] != ""
    ensures Lines(TextOf(lines, terminated)) == lines && NoCr(TextOf(lines, terminated))
    ensures EndsWith(TextOf(lines, terminated), '\n') == terminated
  {
    LinesOfJoin(lines);
    JoinEndsWith(lines);
    assert TextOf(lines, false) == Join(lines, "\n");
  }

  lemma TextOfLines(s: string)
    requires NoCr(s)
    ensures s == TextOf(Lines(s), EndsWith(s, '\n'))
  {
    LinesOfText(s);
  }

  /** The number of final blank lines, and of terminators a text ends with. */
  function BlankTail(lines: seq<string>): nat {
    if lines != [] && lines[|lines| - 1] == "" then 1 + BlankTail(lines[..|lines| - 1]) else 0
  }

  function TrailingNewlines(s: string): nat {
    if EndsWith(s, '\n') then 1 + TrailingNewlines(s[..|s| - 1]) else 0
  }

  lemma TrailingSnoc(s: string)
    ensures TrailingNewlines(s + "\n") == 1 + TrailingNewlines(s)
  {
    assert (s + "\n")[..|s|] == s;
  }

  lemma NoTrailing(s: string)
    requires !EndsWith(s, '\n')
    ensures TrailingNewlines(s) == 0
  {
  }

  lemma {:induction false} TrailingOfText(lines: seq<string>, i: nat, terminated: bool)
    requires AllUnbroken(lines) && i < |lines| && lines[i] != ""
    ensures TrailingNewlines(TextOf(lines, terminated)) == BlankTail(lines) + if terminated then 1 else 0
  {
    hide Join, TrailingNewlines, EndsWith;
    var n := |lines| - 1;
    assert TextOf(lines, false) == Join(lines, "\n");
    TrailingSnoc(Join(lines, "\n"));
    if lines[n] == "" {
      LastOfJoin(lines, "\n");
      assert TextOf(lines, false) == TextOf(lines[..n], true);
      TrailingOfText(lines[..n], i, true);
    } else {
      JoinEndsWith(lines);
      NoTrailing(Join(lines, "\n"));
    }
  }

  lemma ThreeMeansThree(x: string)
    ensures EndsWithThree(x) <==> TrailingNewlines(x) >= 3
  {
    if EndsWith(x, '\n') {
      var a := x[..|x| - 1];
      assert TrailingNewlines(x) == 1 + TrailingNewlines(a);
      if EndsWith(a, '\n') {
        var b := a[..|a| - 1];
        assert TrailingNewlines(a) == 1 + TrailingNewlines(b);
        assert TrailingNewlines(b) >= 1 <==> EndsWith(b, '\n');
        assert |x| >= 3 ==> x[|x| - 3..] == [b[|b| - 1], '\n', '\n'];
      } else {
        assert |x| >= 3 ==> x[|x| - 3..][1] == a[|a| - 1];
      }
    } else {
      assert |x| >= 3 ==> x[|x| - 3..][2] == x[|x| - 1];
    }
  }

  lemma TrailingOfLines(x: string, i: nat)
    requires NoCr(x) && i < |Lines(x)| && Lines(x)[i] != ""
    ensures TrailingNewlines(x) == BlankTail(Lines(x)) + if EndsWith(x, '\n') then 1 else 0
    ensures !EndsWith(x, '\n') ==> BlankTail(Lines(x)) == 0
  {
    LinesOfText(x);
    TextOfLines(x);
    TrailingOfText(Lines(x), i, EndsWith(x, '\n'));
  }

  lemma EditNonBlank(d: Dialect, line: string)
    requires CleanDialect(d) && Edit(d, line).Some?
    ensures Edit(d, line).value != ""
  {
    match d
    case Grub(_) =>
    case SystemdBoot(_) =>
    case Mkinitcpio =>
  }

  /** One pass: the same lines with the target edited, less the final blank line of a terminated text. */
  lemma OnePass(d: Dialect, x: string, t: nat)
    requires CleanDialect(d) && NoCr(x) && SoleTarget(d, Lines(x), t)
    ensures Rewrite(d, x).Success?
    ensures var terminated := EndsWith(x, '\n');
      var y := Rewrite(d, x).value; var kept := Kept(Lines(x)[t := Edit(d, Lines(x)[t]).value], terminated);
      && y == TextOf(kept, terminated)
      && Lines(y) == kept && EndsWith(y, '\n') == terminated && NoCr(y)
      && t < |kept| && kept[t] == Edit(d, Lines(x)[t]).value != "" && AllUnbroken(kept)
  {
    hide IsTarget, Edit, Extra, Lines, CleanDialect, RewriteFrom, EndsWith;
    var lines, terminated := Lines(x), EndsWith(x, '\n');
    LinesOfText(x);
    CleanWanted(d);
    RewriteLines(d, lines);
    assert FirstTarget(d, lines) == t;
    EditUnbroken(d, lines[t]);
    EditNonBlank(d, lines[t]);
    var out := lines[t := Edit(d, lines[t]).value];
    FinishText(x, out);
    LinesOfTextOf(Kept(out, terminated), terminated);
  }

  /** Dropping a final blank line gives a different text. */
  lemma TextShrinks(lines: seq<string>)
    requires |lines| >= 2 && lines[|lines| - 1] == ""
    ensures TextOf(lines[..|lines| - 1], true) != TextOf(lines, true)
  {
    LastOfJoin(lines, "\n");
    assert |TextOf(lines, true)| == |TextOf(lines[..|lines| - 1], true)| + 1;
  }

  lemma DropShows(lines: seq<string>, t: nat, terminated: bool)
    requires t < |lines| && lines[t] != ""
    ensures TextOf(Kept(lines, terminated), terminated) == TextOf(lines, terminated) <==>
      Kept(lines, terminated) == lines
  {
    if terminated && lines[|lines| - 1] == "" {
      TextShrinks(lines);
    }
  }

  /** A second drop has something to drop exactly when two final lines were blank. */
  lemma KeptTwice(lines: seq<string>, t: nat, terminated: bool)
    requires t < |lines| && lines[t] != ""
    requires !terminated ==> BlankTail(lines) == 0
    ensures var kept := Kept(lines, terminated);
      && t < |kept| && kept[t] == lines[t]
      && (Kept(kept, terminated) == kept <==> BlankTail(lines) < 2)
  {
    var n := |lines| - 1;
    if terminated && lines[n] == "" {
      var front := lines[..n];
      assert BlankTail(lines) == 1 + BlankTail(front);
      assert BlankTail(front) >= 1 <==> front[n - 1] == "";
      assert front[n - 1] == "" ==> |Kept(front, terminated)| < |front|;
    } else {
      assert BlankTail(lines) == 0;
    }
  }

  /**
   * Two passes amount to one pass of the combined edit exactly when the file does not end in
   * three newlines: each pass drops one of the final newlines beyond the first.
   */
  lemma TwoPasses(first: Dialect, second: Dialect, both: Dialect, x: string, t: nat)
    requires CleanDialect(first) && CleanDialect(second) && CleanDialect(both) && NoCr(x)
    requires SoleTarget(first, Lines(x), t) && SoleTarget(both, Lines(x), t)
    requires forall line :: IsTarget(first, line) == IsTarget(second, line)
    requires IsTarget(second, Edit(first, Lines(x)[t]).value)
    requires Edit(second, Edit(first, Lines(x)[t]).value) == Edit(both, Lines(x)[t])
    ensures Rewrite(first, x).Success? && Rewrite(both, x).Success?
    ensures Rewrite(second, Rewrite(first, x).value) == Rewrite(both, x) <==> !EndsWithThree(x)
  {
    hide IsTarget, Edit, Extra, Steady, CleanDialect, Rewrite, Lines, TrailingNewlines;
    var lines, terminated := Lines(x), EndsWith(x, '\n');
    var e1, e2 := Edit(first, lines[t]).value, Edit(both, lines[t]).value;
    OnePass(first, x, t);
    OnePass(both, x, t);
    var y := Rewrite(first, x).value;
    assert SoleTarget(second, Lines(y), t) by {
      assert forall i | 0 <= i < |Lines(y)| && i != t :: Lines(y)[i] == lines[i];
    }
    OnePass(second, y, t);
    assert Lines(y)[t := e2] == Kept(lines[t := e2], terminated) by {
      KeptUpdate(lines, t, e1, e2, terminated);
    }
    TargetNonBlank(first, lines[t]);
    TrailingOfLines(x, t);
    ThreeMeansThree(x);
    EditNonBlank(both, lines[t]);
    BlankTailOfUpdate(lines, t, e2);
    KeptTwice(lines[t := e2], t, terminated);
    DropShows(Kept(lines[t := e2], terminated), t, terminated);
  }

  lemma KeptUpdate(lines: seq<string>, t: nat, e1: string, e2: string, terminated: bool)
    requires t < |lines| && e1 != "" && e2 != ""
    ensures t < |Kept(lines[t := e1], terminated)|
    ensures Kept(lines[t := e1], terminated)[t := e2] == Kept(lines[t := e2], terminated)
  {
  }

  lemma TargetNonBlank(d: Dialect, line: string)
    requires IsTarget(d, line)
    ensures line != ""
  {
  }

  // ----- the headline properties -----

  /** Without a target the rewrite is always idempotent. */
  lemma IdempotentWhenAppending(d: Dialect, x: string)
    requires CleanDialect(d) && NoCr(x) && NoTarget(d, Lines(x))
    ensures Rewrite(d, x).Success?
    ensures Rewrite(d, Rewrite(d, x).value) == Rewrite(d, x)
  {
    hide IsTarget, Edit, Extra, ViewOf, Steady, CleanDialect, Lines, RewriteFrom, EndsWith;
    var out := Lines(x) + [Extra(d)];
    AppendPass(d, x);
    var y := Rewrite(d, x).value;
    var t := |Lines(x)|;
    CleanWanted(d);
    RewriteLines(d, out);
    assert FirstTarget(d, out) == t;
    assert out[t := Extra(d)] == out;
    FinishText(y, out);
  }

  /** A pass over a file without a target appends one, and the rest stays. */
  lemma AppendPass(d: Dialect, x: string)
    requires CleanDialect(d) && NoCr(x) && NoTarget(d, Lines(x))
    ensures Rewrite(d, x).Success?
    ensures var y := Rewrite(d, x).value; var out := Lines(x) + [Extra(d)];
      && y == TextOf(out, EndsWith(x, '\n')) && Lines(y) == out && EndsWith(y, '\n') == EndsWith(x, '\n')
      && AllUnbroken(out) && Extra(d) != ""
      && SoleTarget(d, out, |Lines(x)|) && Edit(d, Extra(d)) == Some(Extra(d))
  {
    hide IsTarget, Edit, Extra, ViewOf, Steady, CleanDialect, Lines, RewriteFrom, EndsWith, TextOf, Finish;
    var lines := Lines(x);
    var out := lines + [Extra(d)];
    LinesOfText(x);
    CleanWanted(d);
    RewriteLines(d, lines);
    ExtraIsSettled(d);
    TargetNonBlank(d, Extra(d));
    FinishText(x, out);
    LinesOfTextOf(out, EndsWith(x, '\n'));
  }

  /** The file has no target line, or one whose edit can be read back. */
  ghost predicate Settles(d: Dialect, x: string) {
    var lines := Lines(x); var t := FirstTarget(d, lines);
    t == |lines| || Reparses(d, lines[t])
  }

  lemma PassDiffers(d: Dialect, y: string, z: string, t: nat)
    requires CleanDialect(d) && NoCr(y) && t < |Lines(y)| && IsTarget(d, Lines(y)[t])
    requires t < |Lines(z)| && Edit(d, Lines(y)[t]) != Some(Lines(z)[t])
    ensures Rewrite(d, y) != Success(z)
  {
    RewriteLines(d, Lines(y));
    if SoleTarget(d, Lines(y), t) {
      OnePass(d, y, t);
    }
  }

  /** A file the rewrite accepts has no target, or one that can be edited. */
  lemma AcceptedFile(d: Dialect, x: string)
    requires Rewrite(d, x).Success?
    ensures var lines := Lines(x); NoTarget(d, lines) || SoleTarget(d, lines, FirstTarget(d, lines))
  {
    RewriteLines(d, Lines(x));
  }

  /** What a second pass over a file with a target makes of `y`, the first pass's result. */
  lemma AfterFirstPass(d: Dialect, x: string, t: nat)
    requires CleanDialect(d) && NoCr(x) && SoleTarget(d, Lines(x), t)
    ensures Rewrite(d, x).Success?
    ensures var y := Rewrite(d, x).value;
      && NoCr(y) && t < |Lines(y)| && Lines(y)[t] == Edit(d, Lines(x)[t]).value
      && (forall i | 0 <= i < |Lines(y)| && i != t :: i < |Lines(x)| && Lines(y)[i] == Lines(x)[i])
      && IsTarget(d, Lines(y)[t]) && Steady(d, Lines(y)[t]) && FirstTarget(d, Lines(y)) == t
      && (SoleTarget(d, Lines(y), t) <==> Reparses(d, Lines(x)[t]))
  {
    hide IsTarget, Edit, Extra, ViewOf, Steady, CleanDialect, Rewrite, Lines, TextOf, Reparses, ReadBack;
    OnePass(d, x, t);
    EditHasView(d, Lines(x)[t]);
    EditReadBack(d, Lines(x)[t]);
    EditHasView(d, Edit(d, Lines(x)[t]).value);
  }

  /** A second pass succeeds exactly when there was no target, or the edited one can be read back. */
  lemma SecondPassIff(d: Dialect, x: string)
    requires CleanDialect(d) && NoCr(x) && Rewrite(d, x).Success?
    ensures Rewrite(d, Rewrite(d, x).value).Success? <==> Settles(d, x)
  {
    hide IsTarget, Edit, Extra, Steady, CleanDialect, Lines, RewriteFrom, Reparses;
    var lines := Lines(x);
    RewriteLines(d, lines);
    if NoTarget(d, lines) {
      IdempotentWhenAppending(d, x);
    } else {
      AfterFirstPass(d, x, FirstTarget(d, lines));
      RewriteLines(d, Lines(Rewrite(d, x).value));
    }
  }

  /**
   * A second rewrite of a file changes nothing exactly when the file has no target line,
   * or does not end in three newlines and its target line settles at once.
   */
  lemma IdempotentIff(d: Dialect, x: string)
    requires CleanDialect(d) && NoCr(x) && Rewrite(d, x).Success?
    ensures var lines := Lines(x); var t := FirstTarget(d, lines);
      Rewrite(d, Rewrite(d, x).value) == Rewrite(d, x) <==>
        t == |lines| || (!EndsWithThree(x) && SettlesAtOnce(d, lines[t]))
  {
    hide Tokens, Join, Edit, IsTarget, CleanDialect, Lines, RewriteFrom, EndsWithThree, QuotesAll, Steady, Reparses;
    var lines := Lines(x);
    var t := FirstTarget(d, lines);
    RewriteLines(d, lines);
    if NoTarget(d, lines) {
      IdempotentWhenAppending(d, x);
    } else {
      var e := Edit(d, lines[t]).value;
      SettledOnceIff(d, lines[t]);
      AfterFirstPass(d, x, t);
      OnePass(d, x, t);
      if Edit(d, e) == Some(e) {
        TwoPasses(d, d, d, x, t);
      } else {
        PassDiffers(d, Rewrite(d, x).value, Rewrite(d, x).value, t);
      }
    }
  }

  /** Re-running the writer is a no-op on exactly these files. */
  lemma NoOpIff(d: Dialect, x: string, t: nat)
    requires CleanDialect(d) && NoCr(x) && SoleTarget(d, Lines(x), t)
    ensures Rewrite(d, x) == Success(x) <==>
      && TrailingNewlines(x) <= 1
      && ViewOf(d, Lines(x)[t]).value.Render() == Lines(x)[t]
      && forall w | w in d.Wanted() :: w in ViewOf(d, Lines(x)[t]).value.tokens
  {
    hide IsTarget, Edit, Extra, ViewOf, Steady, CleanDialect, Rewrite, Lines, TrailingNewlines;
    var lines, terminated := Lines(x), EndsWith(x, '\n');
    var e := Edit(d, lines[t]).value;
    OnePass(d, x, t);
    EditHasView(d, lines[t]);
    EditNothingIff(d, lines[t]);
    TargetNonBlank(d, lines[t]);
    TrailingOfLines(x, t);
    TextOfLines(x);
    BlankTailOfUpdate(lines, t, e);
    if e == lines[t] {
      assert lines[t := e] == lines;
      KeptFixedIff(lines, terminated);
    } else {
      assert Lines(Rewrite(d, x).value)[t] != Lines(x)[t];
    }
  }

  lemma KeptFixedIff(lines: seq<string>, terminated: bool)
    requires lines != []
    ensures Kept(lines, terminated) == lines <==> !terminated || BlankTail(lines) == 0
  {
    assert terminated && lines[|lines| - 1] == "" ==> |Kept(lines, terminated)| < |lines|;
  }

  /** Each pass drops exactly one of two or more final newlines. */
  lemma DropsOneNewline(d: Dialect, x: string, t: nat)
    requires CleanDialect(d) && NoCr(x) && SoleTarget(d, Lines(x), t)
    ensures Rewrite(d, x).Success?
    ensures var m := TrailingNewlines(x); TrailingNewlines(Rewrite(d, x).value) == if m >= 2 then m - 1 else m
  {
    hide IsTarget, Edit, Extra, ViewOf, Steady, CleanDialect, Rewrite, Lines, TrailingNewlines, TextOf;
    var lines, terminated := Lines(x), EndsWith(x, '\n');
    var e := Edit(d, lines[t]).value;
    OnePass(d, x, t);
    TargetNonBlank(d, lines[t]);
    TrailingOfLines(x, t);
    TrailingOfLines(Rewrite(d, x).value, t);
    BlankTailOfUpdate(lines, t, e);
  }

  lemma BlankTailOfUpdate(lines: seq<string>, t: nat, e: string)
    requires t < |lines| && lines[t] != "" && e != ""
    ensures BlankTail(lines[t := e]) == BlankTail(lines)
  {
    var n := |lines| - 1;
    if t < n {
      assert lines[t := e][..n] == lines[..n][t := e];
      BlankTailOfUpdate(lines[..n], t, e);
    }
  }

  /** `passes` starts at `x`, each text is the rewrite of the one before, and the last is a fixed point. */
  ghost predicate SettlingRun(d: Dialect, x: string, passes: seq<string>) {
    && |passes| >= 1 && passes[0] == x
    && (forall i | 0 <= i < |passes| - 1 :: Rewrite(d, passes[i]) == Success(passes[i + 1]))
    && Rewrite(d, passes[|passes| - 1]) == Success(passes[|passes| - 1])
  }

  /** How many passes may be needed before the last one that changes nothing. */
  function Passes(d: Dialect, x: string): nat {
    var lines, m := Lines(x), TrailingNewlines(x);
    var t := FirstTarget(d, lines);
    if t == |lines| then 1
    else if SettlesAtOnce(d, lines[t]) then (if m > 2 then m - 1 else 1)
    else if m > 3 then m - 1 else 2
  }

  lemma {:induction false} SettlesFrom(d: Dialect, x: string, t: nat) returns (passes: seq<string>)
    requires CleanDialect(d) && NoCr(x) && SoleTarget(d, Lines(x), t) && Steady(d, Lines(x)[t])
    ensures SettlingRun(d, x, passes)
    ensures var m := TrailingNewlines(x); |passes| - 1 <= if m > 2 then m - 1 else 1
    decreases TrailingNewlines(x)
  {
    hide IsTarget, Edit, ViewOf, Steady, CleanDialect, Rewrite, Lines, TrailingNewlines, SoleTarget, EndsWithThree;
    DropsOneNewline(d, x, t);
    AfterFirstPass(d, x, t);
    FirstIsSole(d, x, t);
    var y := Rewrite(d, x).value;
    if TrailingNewlines(x) <= 2 {
      ThreeMeansThree(x);
      IdempotentIff(d, x);
      passes := [x, y];
    } else {
      var rest := SettlesFrom(d, y, t);
      passes := [x] + rest;
      assert forall i | 1 <= i < |passes| :: passes[i] == rest[i - 1];
    }
  }

  lemma FirstIsSole(d: Dialect, x: string, t: nat)
    requires SoleTarget(d, Lines(x), t)
    ensures t < |Lines(x)| && FirstTarget(d, Lines(x)) == t
  {
  }

  /**
   * Repeated rewriting of such a file settles. Beyond the first pass it takes one for each final
   * newline but two, or one for a target line that does not settle at once, whichever is more.
   */
  lemma SettlesWithin(d: Dialect, x: string) returns (passes: seq<string>)
    requires CleanDialect(d) && NoCr(x) && Rewrite(d, x).Success? && Settles(d, x)
    ensures SettlingRun(d, x, passes) && |passes| - 1 <= Passes(d, x)
  {
    hide IsTarget, Edit, ViewOf, Steady, CleanDialect, Lines, TrailingNewlines, EndsWithThree, Rewrite;
    hide Reparses, QuotesAll;
    var t := FirstTarget(d, Lines(x));
    var y := Rewrite(d, x).value;
    AcceptedFile(d, x);
    IdempotentIff(d, x);
    if Rewrite(d, y) == Success(y) {
      passes := [x, y];
    } else {
      ThreeMeansThree(x);
      DropsOneNewline(d, x, t);
      AfterFirstPass(d, x, t);
      var rest := SettlesFrom(d, y, t);
      passes := [x] + rest;
      assert forall i | 1 <= i < |passes| :: passes[i] == rest[i - 1];
    }
  }

  /** No other file settles: either the first pass fails, or it leaves a target that the second cannot read. */
  lemma SettlesIff(d: Dialect, x: string)
    requires CleanDialect(d) && NoCr(x)
    ensures (exists passes :: SettlingRun(d, x, passes)) <==> Rewrite(d, x).Success? && Settles(d, x)
  {
    hide Rewrite, Settles, CleanDialect;
    if exists passes :: SettlingRun(d, x, passes) {
      var passes :| SettlingRun(d, x, passes);
      var last := |passes| - 1;
      assert Rewrite(d, passes[last]) == Success(passes[last]);
      if last > 0 {
        assert Rewrite(d, passes[0]) == Success(passes[0 + 1]);
        assert last > 1 ==> Rewrite(d, passes[1]) == Success(passes[1 + 1]);
      }
      SecondPassIff(d, x);
    }
    if Rewrite(d, x).Success? && Settles(d, x) {
      var passes := SettlesWithin(d, x);
    }
  }
}
