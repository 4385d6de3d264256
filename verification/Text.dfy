/** Lines, words and substrings, as Rust's string routines see them. */
module Text {

  /** The Unicode White_Space property. */
  predicate IsSpace(c: char) {
    var n := c as int;
    c == ' ' || '\t' <= c <= '\r' || 0x2000 <= n <= 0x200A
    || n in [0x85, 0xA0, 0x1680, 0x2028, 0x2029, 0x202F, 0x205F, 0x3000]
  }

  predicate EndsWith(s: string, c: char) {
    s != "" && s[|s| - 1] == c
  }

  predicate OccursAt(s: string, part: string, i: nat) {
    i + |part| <= |s| && s[i..i + |part|] == part
  }

  predicate Contains(s: string, part: string) {
    exists i | 0 <= i <= |s| :: OccursAt(s, part, i)
  }

  /** Position of the first `c`, or the length when there is none. */
  function Find(s: string, c: char): (i: nat)
    ensures i <= |s|
    ensures i < |s| ==> s[i] == c
    ensures c !in s[..i]
  {
    if s == "" || s[0] == c then 0 else 1 + Find(s[1..], c)
  }

  lemma FindAt(s: string, c: char, i: nat)
    requires i < |s| && s[i] == c && c !in s[..i]
    ensures Find(s, c) == i
  {
    if i > 0 {
      assert s[0] == s[..i][0] && s[1..][..i - 1] == s[..i][1..];
      FindAt(s[1..], c, i - 1);
    }
  }

  // ----- splitting and joining -----

  /** The pieces between separators; always at least one. */
  function Split(s: string, sep: char): (pieces: seq<string>)
    ensures |pieces| >= 1
  {
    if s == "" then [""]
    else
      var rest := Split(s[1..], sep);
      if s[0] == sep then [""] + rest else [[s[0]] + rest[0]] + rest[1..]
  }

  function Join(pieces: seq<string>, sep: string): string {
    if pieces == [] then ""
    else if |pieces| == 1 then pieces[0]
    else pieces[0] + sep + Join(pieces[1..], sep)
  }

  lemma JoinSplit(s: string, sep: char)
    ensures Join(Split(s, sep), [sep]) == s
    ensures forall i | 0 <= i < |Split(s, sep)| :: sep !in Split(s, sep)[i]
  {
    if s != "" {
      JoinSplit(s[1..], sep);
      var rest, all := Split(s[1..], sep), Split(s, sep);
      if s[0] == sep {
        assert all[1..] == rest;
        calc {
          Join(all, [sep]);
          "" + [sep] + Join(rest, [sep]);
          [s[0]] + s[1..];
        }
        assert forall i | 0 <= i < |all| :: sep !in all[i] by {
          assert forall i | 1 <= i < |all| :: all[i] == rest[i - 1];
        }
      } else {
        assert all[1..] == rest[1..];
        if |rest| == 1 {
          assert Join(all, [sep]) == [s[0]] + rest[0];
        } else {
          assert Join(all, [sep]) == [s[0]] + rest[0] + [sep] + Join(rest[1..], [sep]);
          assert Join(all, [sep]) == [s[0]] + Join(rest, [sep]);
        }
        assert forall i | 1 <= i < |all| :: all[i] == rest[i];
      }
    }
  }

  lemma SplitNone(s: string, sep: char)
    requires sep !in s
    ensures Split(s, sep) == [s]
  {
    if s != "" {
      SplitNone(s[1..], sep);
      assert s == [s[0]] + s[1..];
    }
  }

  lemma SplitAppend(s: string, sep: char, rest: string)
    requires sep !in s
    ensures Split(s + [sep] + rest, sep) == [s] + Split(rest, sep)
  {
    var all := s + [sep] + rest;
    if s == "" {
      assert all[1..] == rest;
    } else {
      assert all[1..] == s[1..] + [sep] + rest;
      SplitAppend(s[1..], sep, rest);
      assert s == [s[0]] + s[1..];
    }
  }

  lemma SplitJoin(pieces: seq<string>, sep: char)
    requires |pieces| >= 1 && forall i | 0 <= i < |pieces| :: sep !in pieces[i]
    ensures Split(Join(pieces, [sep]), sep) == pieces
  {
    if |pieces| == 1 {
      SplitNone(pieces[0], sep);
    } else {
      SplitJoin(pieces[1..], sep);
      SplitAppend(pieces[0], sep, Join(pieces[1..], [sep]));
    }
  }

  lemma JoinSnoc(pieces: seq<string>, last: string, sep: string)
    requires |pieces| >= 1
    ensures Join(pieces + [last], sep) == Join(pieces, sep) + sep + last
  {
    var all := pieces + [last];
    assert all[1..] == pieces[1..] + [last];
    if |pieces| == 1 {
      assert Join(all[1..], sep) == last;
    } else {
      JoinSnoc(pieces[1..], last, sep);
      calc {
        Join(all, sep);
        pieces[0] + sep + (Join(pieces[1..], sep) + sep + last);
        pieces[0] + sep + Join(pieces[1..], sep) + sep + last;
      }
    }
  }

  // ----- lines -----

  function StripCr(line: string): string {
    if EndsWith(line, '\r') then line[..|line| - 1] else line
  }

  /** Lines without their terminators; a final line needs none. */
  function Lines(s: string): seq<string> {
    LinesOfPieces(Split(s, '\n'))
  }

  function LinesOfPieces(pieces: seq<string>): seq<string>
    requires |pieces| >= 1
  {
    var n := |pieces| - 1;
    var terminated := seq(n, i requires 0 <= i < n => StripCr(pieces[i]));
    if pieces[n] == "" then terminated else terminated + [pieces[n]]
  }

  ghost predicate NoCr(s: string) {
    '\r' !in s
  }

  /** A line as it can stand between two terminators. */
  ghost predicate Unbroken(line: string) {
    '\n' !in line && '\r' !in line
  }

  ghost predicate AllUnbroken(lines: seq<string>) {
    forall i | 0 <= i < |lines| :: Unbroken(lines[i])
  }

  lemma MembersOfJoin(pieces: seq<string>, sep: string, i: nat, c: char)
    requires i < |pieces| && c in pieces[i]
    ensures c in Join(pieces, sep)
  {
    if |pieces| > 1 && i > 0 {
      MembersOfJoin(pieces[1..], sep, i - 1, c);
    }
  }

  /** Without carriage returns the lines are the pieces, less an empty last one. */
  lemma LinesArePieces(s: string)
    requires NoCr(s)
    ensures var pieces := Split(s, '\n'); var n := |pieces| - 1;
      Lines(s) == if pieces[n] == "" then pieces[..n] else pieces
    ensures AllUnbroken(Split(s, '\n'))
  {
    var pieces := Split(s, '\n');
    JoinSplit(s, '\n');
    forall i | 0 <= i < |pieces| ensures Unbroken(pieces[i]) {
      if '\r' in pieces[i] {
        MembersOfJoin(pieces, "\n", i, '\r');
      }
    }
    UnbrokenPieces(pieces);
  }

  lemma UnbrokenPieces(pieces: seq<string>)
    requires |pieces| >= 1 && AllUnbroken(pieces)
    ensures var n := |pieces| - 1; LinesOfPieces(pieces) == if pieces[n] == "" then pieces[..n] else pieces
  {
    var n := |pieces| - 1;
    forall i | 0 <= i < n ensures StripCr(pieces[i]) == pieces[i] {
      assert Unbroken(pieces[i]);
    }
  }

  lemma LastOfJoin(pieces: seq<string>, sep: string)
    requires |pieces| >= 1
    ensures var n := |pieces| - 1;
      n > 0 ==> Join(pieces, sep) == Join(pieces[..n], sep) + sep + pieces[n]
  {
    var n := |pieces| - 1;
    if n > 0 {
      JoinSnoc(pieces[..n], pieces[n], sep);
      assert pieces[..n] + [pieces[n]] == pieces;
    }
  }

  /** A text without carriage returns is its lines, joined, plus the final terminator if it has one. */
  lemma LinesOfText(s: string)
    requires NoCr(s)
    ensures AllUnbroken(Lines(s))
    ensures s == Join(Lines(s), "\n") + (if EndsWith(s, '\n') then "\n" else "")
    ensures EndsWith(s, '\n') ==> Lines(s) != []
    ensures !EndsWith(s, '\n') && Lines(s) != [] ==> Lines(s)[|Lines(s)| - 1] != ""
  {
    hide Join, Split, Lines;
    var pieces := Split(s, '\n');
    var n := |pieces| - 1;
    LinesArePieces(s);
    JoinSplit(s, '\n');
    JoinFew(s);
    if n == 0 {
      JoinFew(pieces[0]);
      assert pieces == [pieces[0]];
    } else {
      LastOfJoin(pieces, "\n");
      if pieces[n] != "" {
        assert s[|s| - 1] == pieces[n][|pieces[n]| - 1];
      }
    }
  }

  lemma JoinFew(s: string)
    ensures Join([s], "\n") == s && Join([], "\n") == ""
  {
  }

  /** The lines of a joined text, with or without a final terminator. */
  lemma LinesOfJoin(lines: seq<string>)
    requires lines != [] && AllUnbroken(lines)
    ensures Lines(Join(lines, "\n") + "\n") == lines
    ensures var n := |lines| - 1; Lines(Join(lines, "\n")) == if lines[n] == "" then lines[..n] else lines
    ensures NoCr(Join(lines, "\n"))
  {
    hide Lines, Join, Split;
    SplitJoin(lines, '\n');
    JoinHasOnly(lines);
    LinesArePieces(Join(lines, "\n"));
    var all := lines + [""];
    JoinSnoc(lines, "", "\n");
    SplitJoin(all, '\n');
    JoinHasOnly(all);
    LinesArePieces(Join(all, "\n"));
    assert all[..|lines|] == lines;
    assert Join(lines, "\n") + "\n" == Join(all, "\n");
  }

  lemma JoinEndsWith(lines: seq<string>)
    requires lines != [] && AllUnbroken(lines)
    ensures EndsWith(Join(lines, "\n"), '\n') <==> |lines| >= 2 && lines[|lines| - 1] == ""
  {
    LastOfJoin(lines, "\n");
    assert Unbroken(lines[|lines| - 1]);
  }

  lemma JoinHasOnly(lines: seq<string>)
    requires AllUnbroken(lines)
    ensures NoCr(Join(lines, "\n"))
  {
    if |lines| > 1 {
      JoinHasOnly(lines[1..]);
    }
  }

  // ----- words -----

  function TrimStart(s: string): string {
    if s != "" && IsSpace(s[0]) then TrimStart(s[1..]) else s
  }

  function TrimEnd(s: string): string {
    if s != "" && IsSpace(s[|s| - 1]) then TrimEnd(s[..|s| - 1]) else s
  }

  function Trim(s: string): string {
    TrimEnd(TrimStart(s))
  }

  function WordLength(s: string): (n: nat)
    ensures n <= |s|
    ensures forall k | 0 <= k < n :: !IsSpace(s[k])
    ensures n < |s| ==> IsSpace(s[n])
  {
    if s == "" || IsSpace(s[0]) then 0 else 1 + WordLength(s[1..])
  }

  /** The maximal runs of non-space characters. */
  function Tokens(s: string): seq<string>
    decreases |s|
  {
    if s == "" then []
    else if IsSpace(s[0]) then Tokens(s[1..])
    else
      var n := WordLength(s);
      [s[..n]] + Tokens(s[n..])
  }

  predicate Word(s: string) {
    s != "" && forall k | 0 <= k < |s| :: !IsSpace(s[k])
  }

  predicate Words(tokens: seq<string>) {
    forall i | 0 <= i < |tokens| :: Word(tokens[i])
  }

  lemma TokensAreWords(s: string)
    ensures Words(Tokens(s))
    decreases |s|
  {
    if s != "" {
      if IsSpace(s[0]) {
        TokensAreWords(s[1..]);
      } else {
        TokensAreWords(s[WordLength(s)..]);
      }
    }
  }

  lemma WordLengthAt(w: string, rest: string)
    requires forall k | 0 <= k < |w| :: !IsSpace(w[k])
    requires rest == "" || IsSpace(rest[0])
    ensures WordLength(w + rest) == |w|
  {
    hide IsSpace;
    if w == "" {
      assert w + rest == rest;
    } else {
      assert (w + rest)[1..] == w[1..] + rest;
      WordLengthAt(w[1..], rest);
    }
  }

  lemma TokensOfWord(w: string, rest: string)
    requires Word(w) && (rest == "" || IsSpace(rest[0]))
    ensures Tokens(w + rest) == [w] + Tokens(rest)
  {
    WordLengthAt(w, rest);
    assert (w + rest)[..|w|] == w && (w + rest)[|w|..] == rest;
    assert (w + rest)[0] == w[0];
  }

  lemma NoTokens()
    ensures Tokens("") == []
  {
  }

  lemma TokensAfterSpace(s: string)
    ensures IsSpace(' ') && Tokens(" " + s) == Tokens(s)
  {
    assert (" " + s)[1..] == s;
  }

  lemma {:induction false} TokensOfJoin(tokens: seq<string>)
    requires Words(tokens)
    ensures Tokens(Join(tokens, " ")) == tokens
  {
    hide Tokens, IsSpace;
    if tokens == [] {
      NoTokens();
    } else if |tokens| == 1 {
      NoTokens();
      TokensOfWord(tokens[0], "");
      assert tokens[0] + "" == tokens[0];
    } else if |tokens| > 1 {
      var rest := " " + Join(tokens[1..], " ");
      TokensAfterSpace(Join(tokens[1..], " "));
      TokensOfWord(tokens[0], rest);
      assert tokens[0] + " " + Join(tokens[1..], " ") == tokens[0] + rest;
      TokensOfJoin(tokens[1..]);
    }
  }

  /** Every word of a text is a substring of it. */
  lemma TokenIsContained(s: string, t: string)
    requires t in Tokens(s)
    ensures Contains(s, t)
    decreases |s|
  {
    if IsSpace(s[0]) {
      TokenIsContained(s[1..], t);
      ContainsShift(s, 1, t);
    } else {
      var n := WordLength(s);
      if t == s[..n] {
        assert OccursAt(s, t, 0);
      } else {
        TokenIsContained(s[n..], t);
        ContainsShift(s, n, t);
      }
    }
  }

  lemma ContainsShift(s: string, n: nat, t: string)
    requires n <= |s| && Contains(s[n..], t)
    ensures Contains(s, t)
  {
    var i :| 0 <= i <= |s[n..]| && OccursAt(s[n..], t, i);
    assert OccursAt(s, t, n + i);
  }

  /** A text that neither starts nor ends with a space is its own trimming. */
  lemma TrimFixed(s: string)
    requires s == "" || (!IsSpace(s[0]) && !IsSpace(s[|s| - 1]))
    ensures Trim(s) == s
  {
  }

  lemma JoinOfWordsIsTrimmed(tokens: seq<string>)
    requires Words(tokens)
    ensures var s := Join(tokens, " "); s == "" <==> tokens == []
    ensures var s := Join(tokens, " "); tokens != [] ==> !IsSpace(s[0]) && !IsSpace(s[|s| - 1]) && s[0] == tokens[0][0]
  {
    if |tokens| > 1 {
      JoinOfWordsIsTrimmed(tokens[1..]);
    }
  }
}
