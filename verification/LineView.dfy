/**
 * The three line-oriented configuration formats Virtu edits.
 *
 * Each has one target line carrying a list of words between a fixed prefix and suffix. A view of
 * a line is that decomposition; editing a line appends the words it lacks.
 */
module LineView {
  import opened Wrappers
  import opened Text

  const TARGET_VAR := "GRUB_CMDLINE_LINUX_DEFAULT"
  const VFIO_MODULES: seq<string> := ["vfio_pci", "vfio", "vfio_iommu_type1"]

  datatype Dialect = Grub(params: seq<string>) | SystemdBoot(params: seq<string>) | Mkinitcpio {
    function Wanted(): seq<string> {
      if Mkinitcpio? then VFIO_MODULES else params
    }
  }

  datatype View = View(prefix: string, tokens: seq<string>, suffix: string) {
    function Render(): string {
      prefix + Join(tokens, " ") + suffix
    }
  }

  function AddMissing(tokens: seq<string>, wanted: seq<string>): seq<string>
    decreases |wanted|
  {
    if wanted == [] then tokens
    else AddMissing(if wanted[0] in tokens then tokens else tokens + [wanted[0]], wanted[1..])
  }

  // ----- GRUB: KEY=value, KEY="value" tail or KEY='value' tail -----

  function SplitAssignment(line: string): Option<(string, string)> {
    var trimmed := TrimStart(line);
    if trimmed == "" || trimmed[0] == '#' then None
    else
      var eq := Find(line, '=');
      if eq == |line| then None else Some((Trim(line[..eq]), line[eq + 1..]))
  }

  datatype Quoted = Quoted(quote: string, inner: string, tail: string)

  predicate IsQuote(c: char) {
    c == '"' || c == '\''
  }

  function ParseQuotedValue(value: string): Option<Quoted> {
    if value == "" then Some(Quoted("", "", ""))
    else if IsQuote(value[0]) then
      var close := Find(value[1..], value[0]);
      if close == |value| - 1 then None
      else Some(Quoted([value[0]], value[1..1 + close], value[close + 2..]))
    else Some(Quoted("", value, ""))
  }

  function GrubView(line: string): Option<View> {
    var eq := Find(line, '=');
    if eq == |line| then None
    else
      match ParseQuotedValue(line[eq + 1..])
      case None => None
      case Some(q) => Some(View(line[..eq] + "=" + q.quote, Tokens(q.inner), q.quote + q.tail))
  }

  // ----- systemd-boot: leading space, `options`, words -----

  function Leading(line: string): string {
    line[..WhitespaceLength(line)]
  }

  function WhitespaceLength(s: string): (n: nat)
    ensures n <= |s|
    ensures TrimStart(s) == s[n..]
    ensures forall k | 0 <= k < n :: IsSpace(s[k])
    ensures n < |s| ==> !IsSpace(s[n])
  {
    if s != "" && IsSpace(s[0]) then 1 + WhitespaceLength(s[1..]) else 0
  }

  /** The text after the key and its separator. */
  function OptionsValue(trimmed: string): string {
    var n := WordLength(trimmed);
    if n == |trimmed| then "" else Trim(trimmed[n + 1..])
  }

  function SystemdView(line: string): View {
    View(Leading(line) + "options ", Tokens(OptionsValue(TrimStart(line))), "")
  }

  // ----- mkinitcpio: MODULES=(words) -----

  function MkinitcpioView(line: string): Option<View> {
    var eq := Find(line, '=');
    if eq == |line| then None
    else
      var trimmed := Trim(line[eq + 1..]);
      if trimmed == "" || trimmed[0] != '(' || trimmed[|trimmed| - 1] != ')' then None
      else Some(View(line[..eq] + "=(", Tokens(trimmed[1..|trimmed| - 1]), ")"))
  }

  // ----- the common interface -----

  predicate IsTarget(d: Dialect, line: string) {
    match d
    case Grub(_) =>
      var a := SplitAssignment(line);
      a.Some? && a.value.0 == TARGET_VAR
    case SystemdBoot(_) =>
      var trimmed := TrimStart(line);
      trimmed != "" && trimmed[0] != '#' && trimmed[..WordLength(trimmed)] == "options"
    case Mkinitcpio => "MODULES=" <= TrimStart(line)
  }

  function ViewOf(d: Dialect, line: string): Option<View> {
    match d
    case Grub(_) => GrubView(line)
    case SystemdBoot(_) => Some(SystemdView(line))
    case Mkinitcpio => MkinitcpioView(line)
  }

  function Edit(d: Dialect, line: string): Option<string> {
    match ViewOf(d, line)
    case None => None
    case Some(v) => Some(v.(tokens := AddMissing(v.tokens, d.Wanted())).Render())
  }

  /** The line appended when there is no target. */
  function Extra(d: Dialect): string {
    match d
    case Grub(params) => TARGET_VAR + "=\"" + Join(params, " ") + "\""
    case SystemdBoot(params) => "options " + Join(params, " ")
    case Mkinitcpio => "MODULES=(" + Join(VFIO_MODULES, " ") + ")"
  }

  lemma CleanWanted(d: Dialect)
    requires CleanDialect(d)
    ensures d.Wanted() != []
  {
  }

  lemma EditHasView(d: Dialect, line: string)
    ensures Edit(d, line).Some? <==> ViewOf(d, line).Some?
  {
  }

  lemma QuoteIsNoSpace(c: char)
    requires IsQuote(c)
    ensures !IsSpace(c)
  {
  }

  // ----- appending missing words -----

  lemma AddMissingMembers(tokens: seq<string>, wanted: seq<string>)
    ensures tokens <= AddMissing(tokens, wanted)
    ensures forall t :: t in AddMissing(tokens, wanted) <==> t in tokens || t in wanted
    decreases |wanted|
  {
    if wanted != [] {
      var w := wanted[0];
      var next := if w in tokens then tokens else tokens + [w];
      AddMissingMembers(next, wanted[1..]);
      assert wanted == [w] + wanted[1..];
      assert forall t :: t in next <==> t in tokens || t == w;
    }
  }

  lemma AddMissingNothing(tokens: seq<string>, wanted: seq<string>)
    requires forall t | t in wanted :: t in tokens
    ensures AddMissing(tokens, wanted) == tokens
    decreases |wanted|
  {
    if wanted != [] {
      AddMissingNothing(tokens, wanted[1..]);
    }
  }

  lemma AddMissingTwice(tokens: seq<string>, p: seq<string>, q: seq<string>)
    ensures AddMissing(AddMissing(tokens, p), q) == AddMissing(tokens, p + q)
    decreases |p|
  {
    if p == [] {
      assert p + q == q;
    } else {
      assert (p + q)[1..] == p[1..] + q && (p + q)[0] == p[0];
      AddMissingTwice(if p[0] in tokens then tokens else tokens + [p[0]], p[1..], q);
    }
  }

  /** Appending leaves a word list alone exactly when nothing is missing. */
  lemma AddMissingFixed(tokens: seq<string>, wanted: seq<string>)
    ensures AddMissing(tokens, wanted) == tokens <==> forall t | t in wanted :: t in tokens
  {
    AddMissingMembers(tokens, wanted);
    if forall t | t in wanted :: t in tokens {
      AddMissingNothing(tokens, wanted);
    }
  }

  // ----- parsing back what was rendered -----

  /** A word that survives in every dialect: no space and no quote in it. */
  predicate CleanParam(s: string) {
    Word(s) && forall k | 0 <= k < |s| :: !IsQuote(s[k])
  }

  predicate CleanDialect(d: Dialect) {
    d.Wanted() != [] && forall i | 0 <= i < |d.Wanted()| :: CleanParam(d.Wanted()[i])
  }

  /** The text after the equals sign. */
  function ValueOf(line: string): string {
    line[if Find(line, '=') == |line| then |line| else Find(line, '=') + 1..]
  }

  /** The value of an unquoted GRUB line starts with a blank and then a quote. */
  predicate BlankThenQuote(line: string) {
    var value := ValueOf(line);
    value != "" && IsSpace(value[0]) && TrimStart(value) != "" && IsQuote(TrimStart(value)[0])
  }

  /** Lines whose edit can be parsed back. */
  predicate Steady(d: Dialect, line: string) {
    d.Grub? ==> !BlankThenQuote(line)
  }

  /** The words fit between the prefix and suffix of the line they came from. */
  ghost predicate Fits(d: Dialect, v: View, tokens: seq<string>) {
    && Words(tokens) && tokens != []
    && (d.Grub? ==>
          if v.suffix == "" then !IsQuote(tokens[0][0])
          else forall i | 0 <= i < |tokens| :: v.suffix[0] !in tokens[i])
  }

  lemma JoinExcludes(tokens: seq<string>, c: char)
    requires c != ' ' && forall i | 0 <= i < |tokens| :: c !in tokens[i]
    ensures c !in Join(tokens, " ")
  {
    if |tokens| > 1 {
      JoinExcludes(tokens[1..], c);
    }
  }

  lemma TrimStartPrefix(prefix: string, rest: string)
    requires TrimStart(prefix) != ""
    ensures TrimStart(prefix + rest) == TrimStart(prefix) + rest
  {
    if IsSpace(prefix[0]) {
      assert (prefix + rest)[1..] == prefix[1..] + rest;
      TrimStartPrefix(prefix[1..], rest);
    } else {
      assert (prefix + rest)[0] == prefix[0];
    }
  }

  lemma SplitAtEquals(key: string, value: string)
    requires '=' !in key
    ensures var line := key + "=" + value;
      Find(line, '=') == |key| && line[..|key|] == key && line[|key| + 1..] == value && |key| < |line|
  {
    var line := key + "=" + value;
    assert line[..|key|] == key && line[|key|] == '=';
    FindAt(line, '=', |key|);
  }

  lemma ParseBack(quote: char, inner: string, tail: string)
    requires IsQuote(quote) && quote !in inner
    ensures ParseQuotedValue([quote] + inner + ([quote] + tail)) == Some(Quoted([quote], inner, tail))
  {
    var value := [quote] + inner + ([quote] + tail);
    var body := value[1..];
    assert body == inner + ([quote] + tail);
    assert body[..|inner|] == inner && body[|inner|] == quote;
    FindAt(body, quote, |inner|);
    assert value[1..1 + |inner|] == inner;
    assert value[|inner| + 2..] == tail;
  }

  lemma GrubTargetKey(key: string, value: string)
    requires '=' !in key
    ensures IsTarget(Grub([]), key + "=" + value) <==> Trim(key) == TARGET_VAR && TrimStart(key)[0] != '#'
  {
    hide Find, TrimStart, TrimEnd;
    SplitAtEquals(key, value);
    var line := key + "=" + value;
    assert line == key + ("=" + value);
    if TrimStart(key) != "" {
      TrimStartPrefix(key, "=" + value);
    } else {
      TrimOfBlank(key);
    }
  }

  lemma TrimOfBlank(s: string)
    requires TrimStart(s) == ""
    ensures Trim(s) == ""
  {
  }

  lemma GrubValueReparse(value: string, tokens: seq<string>)
    requires ParseQuotedValue(value).Some? && Words(tokens) && tokens != []
    requires var q := ParseQuotedValue(value).value;
      if q.quote == "" then !IsQuote(tokens[0][0])
      else forall i | 0 <= i < |tokens| :: q.quote[0] !in tokens[i]
    ensures var q := ParseQuotedValue(value).value; var joined := Join(tokens, " ");
      ParseQuotedValue(q.quote + joined + (q.quote + q.tail)) == Some(Quoted(q.quote, joined, q.tail))
  {
    hide Join, Words;
    var q := ParseQuotedValue(value).value;
    var joined := Join(tokens, " ");
    JoinOfWordsIsTrimmed(tokens);
    if q.quote != "" {
      JoinExcludes(tokens, q.quote[0]);
      ParseBack(q.quote[0], joined, q.tail);
    } else {
      assert q.quote + joined + (q.quote + q.tail) == joined;
    }
  }

  /** The GRUB line is its key, an equals sign, and the quoted value. */
  lemma GrubReparse(line: string, tokens: seq<string>)
    requires IsTarget(Grub([]), line) && GrubView(line).Some?
    requires Fits(Grub([]), GrubView(line).value, tokens)
    ensures var v := GrubView(line).value; var e := v.(tokens := tokens).Render();
      IsTarget(Grub([]), e) && GrubView(e) == Some(v.(tokens := tokens))
  {
    hide Tokens, Join, IsSpace, Find, Trim, TrimStart;
    var eq := Find(line, '=');
    var key, was := line[..eq], line[eq + 1..];
    var q := ParseQuotedValue(was).value;
    var value := q.quote + Join(tokens, " ") + (q.quote + q.tail);
    RenderAround(key + "=", q.quote, Join(tokens, " "), q.quote + q.tail);
    assert line == key + "=" + was;
    GrubTargetKey(key, was);
    GrubTargetKey(key, value);
    SplitAtEquals(key, value);
    assert q.quote != "" ==> (q.quote + q.tail)[0] == q.quote[0];
    GrubValueReparse(was, tokens);
    TokensOfJoin(tokens);
  }

  lemma RenderAround(a: string, b: string, c: string, d: string)
    ensures (a + b) + c + d == a + (b + c + d)
  {
  }

  lemma SystemdReparse(line: string, tokens: seq<string>)
    requires IsTarget(SystemdBoot([]), line) && Words(tokens) && tokens != []
    ensures var v := SystemdView(line); var e := v.(tokens := tokens).Render();
      IsTarget(SystemdBoot([]), e) && SystemdView(e) == v.(tokens := tokens)
  {
    var lead, joined := Leading(line), Join(tokens, " ");
    var trimmed := "options " + joined;
    RenderAround(lead, "options ", joined, "");
    assert "options " + joined + "" == trimmed;
    assert SystemdView(line).(tokens := tokens).Render() == lead + trimmed;
    JoinOfWordsIsTrimmed(tokens);
    TokensOfJoin(tokens);
    OptionsParse(joined);
    LeadingOf(lead, trimmed);
  }

  lemma OptionsParse(joined: string)
    requires joined != "" && !IsSpace(joined[0]) && !IsSpace(joined[|joined| - 1])
    ensures var trimmed := "options " + joined;
      trimmed[..WordLength(trimmed)] == "options" && OptionsValue(trimmed) == joined
  {
    var trimmed := "options " + joined;
    assert trimmed == "options" + (" " + joined);
    WordLengthAt("options", " " + joined);
    assert trimmed[..7] == "options" && trimmed[8..] == joined;
    TrimFixed(joined);
  }

  lemma LeadingOf(lead: string, rest: string)
    requires forall k | 0 <= k < |lead| :: IsSpace(lead[k])
    requires rest != "" && !IsSpace(rest[0])
    ensures Leading(lead + rest) == lead && TrimStart(lead + rest) == rest
  {
    var s := lead + rest;
    var n := WhitespaceLength(s);
    assert s[|lead|] == rest[0];
    assert forall k | 0 <= k < |lead| :: s[k] == lead[k];
    if n < |lead| {
      assert false;
    }
    assert n == |lead|;
    assert s[..|lead|] == lead && s[|lead|..] == rest;
  }

  lemma MkinitcpioReparse(line: string, tokens: seq<string>)
    requires IsTarget(Mkinitcpio, line) && MkinitcpioView(line).Some? && Words(tokens)
    ensures var v := MkinitcpioView(line).value; var e := v.(tokens := tokens).Render();
      IsTarget(Mkinitcpio, e) && MkinitcpioView(e) == Some(v.(tokens := tokens))
  {
    hide Tokens, Trim, Join, IsSpace, Find, Words, TrimStart;
    var key, joined := line[..Find(line, '=')], Join(tokens, " ");
    var value := "(" + joined + ")";
    RenderAround(key + "=", "(", joined, ")");
    assert MkinitcpioView(line).value.(tokens := tokens).Render() == key + "=" + value;
    SplitAtEquals(key, value);
    ArrayParse(joined);
    TokensOfJoin(tokens);
    ModulesTarget(line, value);
  }

  lemma ArrayParse(joined: string)
    ensures var value := "(" + joined + ")";
      Trim(value) == value && value[0] == '(' && value[|value| - 1] == ')' && value[1..|value| - 1] == joined
  {
    var value := "(" + joined + ")";
    TrimFixed(value);
  }

  /** A line that starts with `key=`, after space, still does when its value is replaced. */
  lemma KeyStays(line: string, key: string, value: string)
    requires key + "=" <= TrimStart(line)
    requires key != "" && '=' !in key && !IsSpace(key[0])
    ensures TrimStart(line[..Find(line, '=')] + "=" + value) == key + "=" + value
  {
    hide IsSpace, Find, TrimStart, Leading;
    var n := WhitespaceLength(line);
    KeyAt(line, key, n);
    LeadHasNoEquals(line);
    assert '=' !in line[..n] + key;
    FindAt(line, '=', n + |key|);
    LeadingOf(line[..n], key + "=" + value);
    assert line[..n] + key + "=" + value == line[..n] + (key + "=" + value);
  }

  lemma KeyAt(line: string, key: string, n: nat)
    requires n <= |line| && key + "=" <= line[n..]
    ensures n + |key| < |line| && line[..n + |key|] == line[..n] + key && line[n + |key|] == '='
  {
    var rest := line[n..];
    assert rest[..|key| + 1] == key + "=";
    assert rest[..|key|] == key && rest[|key|] == '=';
    assert line == line[..n] + rest;
  }

  lemma LeadHasNoEquals(line: string)
    ensures '=' !in line[..WhitespaceLength(line)]
  {
  }

  lemma ModulesTarget(line: string, value: string)
    requires "MODULES=" <= TrimStart(line)
    ensures IsTarget(Mkinitcpio, line[..Find(line, '=')] + "=" + value)
  {
    hide TrimStart, Find, IsSpace;
    ModulesFacts("MODULES");
    KeyStays(line, "MODULES", value);
  }

  lemma ModulesFacts(key: string)
    requires key == "MODULES"
    ensures key + "=" == "MODULES=" && '=' !in key && !IsSpace(key[0])
  {
  }

  /** A target line rebuilt with fitting words is a target line with those words. */
  lemma Reparse(d: Dialect, line: string, tokens: seq<string>)
    requires IsTarget(d, line) && ViewOf(d, line).Some? && Fits(d, ViewOf(d, line).value, tokens)
    ensures var v := ViewOf(d, line).value; var e := v.(tokens := tokens).Render();
      IsTarget(d, e) && ViewOf(d, e) == Some(v.(tokens := tokens))
  {
    match d
    case Grub(_) => GrubReparse(line, tokens);
    case SystemdBoot(_) => SystemdReparse(line, tokens);
    case Mkinitcpio => MkinitcpioReparse(line, tokens);
  }

  // ----- editing is stable -----

  lemma TokenCharacters(s: string, i: nat, c: char)
    requires i < |Tokens(s)| && c in Tokens(s)[i]
    ensures c in s
    decreases |s|
  {
    if IsSpace(s[0]) {
      TokenCharacters(s[1..], i, c);
    } else if i > 0 {
      TokenCharacters(s[WordLength(s)..], i - 1, c);
    }
  }

  lemma FirstTokenStart(s: string)
    requires Tokens(s) != []
    ensures TrimStart(s) != "" && Tokens(s)[0] != "" && Tokens(s)[0][0] == TrimStart(s)[0]
  {
  }

  lemma AddMissingWords(tokens: seq<string>, wanted: seq<string>)
    requires Words(tokens) && Words(wanted)
    ensures Words(AddMissing(tokens, wanted))
  {
    AddMissingMembers(tokens, wanted);
    var all := AddMissing(tokens, wanted);
    forall i | 0 <= i < |all| ensures Word(all[i]) {
      assert all[i] in all;
    }
  }

  lemma WantedAreWords(d: Dialect)
    requires CleanDialect(d)
    ensures Words(d.Wanted())
  {
    assert forall i | 0 <= i < |d.Wanted()| :: CleanParam(d.Wanted()[i]);
  }

  lemma EditedFits(d: Dialect, line: string)
    requires CleanDialect(d) && Steady(d, line) && ViewOf(d, line).Some?
    ensures var v := ViewOf(d, line).value; Fits(d, v, AddMissing(v.tokens, d.Wanted()))
  {
    var v := ViewOf(d, line).value;
    var all := AddMissing(v.tokens, d.Wanted());
    AddMissingMembers(v.tokens, d.Wanted());
    assert d.Wanted()[0] in all;
    ViewTokensAreWords(d, line);
    AddMissingWords(v.tokens, d.Wanted());
    if d.Grub? {
      var value := line[Find(line, '=') + 1..];
      var q := ParseQuotedValue(value).value;
      if q.quote == "" {
        if v.tokens == [] {
          FirstMissing(d.Wanted());
        } else {
          FirstTokenStart(q.inner);
          assert all[0] == v.tokens[0];
        }
      } else {
        var c := q.quote[0];
        assert v.suffix[0] == c && c !in q.inner;
        forall i | 0 <= i < |all| ensures c !in all[i] {
          assert all[i] in all;
          if all[i] in v.tokens {
            var k :| 0 <= k < |v.tokens| && v.tokens[k] == all[i];
            if c in all[i] {
              TokenCharacters(q.inner, k, c);
            }
          }
        }
      }
    }
  }

  lemma FirstMissing(wanted: seq<string>)
    requires wanted != []
    ensures var all := AddMissing([], wanted); all != [] && all[0] == wanted[0]
  {
    AddMissingMembers([wanted[0]], wanted[1..]);
    assert [] + [wanted[0]] == [wanted[0]];
  }

  lemma ViewTokensAreWords(d: Dialect, line: string)
    requires ViewOf(d, line).Some?
    ensures Words(ViewOf(d, line).value.tokens)
  {
    match d
    case Grub(_) => TokensAreWords(ParseQuotedValue(line[Find(line, '=') + 1..]).value.inner);
    case SystemdBoot(_) => TokensAreWords(OptionsValue(TrimStart(line)));
    case Mkinitcpio =>
      var trimmed := Trim(line[Find(line, '=') + 1..]);
      TokensAreWords(trimmed[1..|trimmed| - 1]);
  }

  /** The edited line is a target whose words are the old ones followed by the missing ones, in the same frame. */
  lemma EditMeaning(d: Dialect, line: string)
    requires CleanDialect(d) && Steady(d, line) && IsTarget(d, line) && ViewOf(d, line).Some?
    ensures Edit(d, line).Some?
    ensures IsTarget(d, Edit(d, line).value)
    ensures var v := ViewOf(d, line).value;
      ViewOf(d, Edit(d, line).value) == Some(v.(tokens := AddMissing(v.tokens, d.Wanted())))
  {
    EditedFits(d, line);
    Reparse(d, line, AddMissing(ViewOf(d, line).value.tokens, d.Wanted()));
  }

  /** Editing twice is editing once. */
  lemma EditStable(d: Dialect, line: string)
    requires CleanDialect(d) && Steady(d, line) && IsTarget(d, line) && Edit(d, line).Some?
    ensures Edit(d, Edit(d, line).value) == Edit(d, line)
  {
    EditMeaning(d, line);
    var v := ViewOf(d, line).value;
    AddMissingMembers(v.tokens, d.Wanted());
    AddMissingNothing(AddMissing(v.tokens, d.Wanted()), d.Wanted());
  }

  /** Editing for `p` and then for `q` is editing for both. */
  lemma EditTwice(p: seq<string>, q: seq<string>, line: string)
    requires CleanDialect(Grub(p)) && Steady(Grub(p), line) && IsTarget(Grub(p), line) && Edit(Grub(p), line).Some?
    ensures Edit(Grub(q), Edit(Grub(p), line).value) == Edit(Grub(p + q), line)
  {
    EditMeaning(Grub(p), line);
    AddMissingTwice(ViewOf(Grub(p), line).value.tokens, p, q);
  }

  lemma BlankThenQuoteWords(value: string)
    requires TrimStart(value) != "" && IsQuote(TrimStart(value)[0])
    ensures Tokens(value) != [] && Tokens(value)[0] != "" && IsQuote(Tokens(value)[0][0])
  {
    if IsSpace(value[0]) {
      BlankThenQuoteWords(value[1..]);
    }
  }

  /** A blank-then-quote value is taken as it is. */
  lemma UnquotedView(line: string)
    requires BlankThenQuote(line)
    ensures Find(line, '=') < |line| && ParseQuotedValue(ValueOf(line)) == Some(Quoted("", ValueOf(line), ""))
    ensures GrubView(line) == Some(View(line[..Find(line, '=')] + "=", Tokens(ValueOf(line)), ""))
  {
    hide Tokens, Find;
    var eq := Find(line, '=');
    if IsQuote(line[eq + 1]) {
      QuoteIsNoSpace(line[eq + 1]);
    }
    assert line[..eq] + "=" + "" == line[..eq] + "=" && "" + "" == "";
  }

  /** Evenly spaced words do not start with a blank, so they are not what such a line holds. */
  lemma UnsteadyRender(line: string, tokens: seq<string>)
    requires BlankThenQuote(line) && Words(tokens) && tokens != []
    ensures GrubView(line).Some? && GrubView(line).value.(tokens := tokens).Render() != line
  {
    hide Tokens, Join, Find, GrubView;
    var eq := Find(line, '=');
    var joined := Join(tokens, " ");
    UnquotedView(line);
    JoinOfWordsIsTrimmed(tokens);
    assert (line[..eq] + "=" + joined + "")[eq + 1] == joined[0];
  }

  /** An edit changes nothing exactly when the words are there already, spaced by single blanks. */
  lemma EditNothingIff(d: Dialect, line: string)
    requires CleanDialect(d) && IsTarget(d, line) && ViewOf(d, line).Some?
    ensures var v := ViewOf(d, line).value;
      Edit(d, line) == Some(line) <==> v.Render() == line && forall w | w in d.Wanted() :: w in v.tokens
  {
    var v := ViewOf(d, line).value;
    var all := AddMissing(v.tokens, d.Wanted());
    assert v.(tokens := v.tokens) == v;
    if Steady(d, line) {
      EditMeaning(d, line);
      AddMissingFixed(v.tokens, d.Wanted());
    } else {
      hide AddMissing, Tokens, GrubView;
      UnquotedView(line);
      BlankThenQuoteWords(ValueOf(line));
      AddMissingMembers(v.tokens, d.Wanted());
      ViewTokensAreWords(d, line);
      WantedAreWords(d);
      AddMissingWords(v.tokens, d.Wanted());
      UnsteadyRender(line, v.tokens);
      UnsteadyRender(line, all);
    }
  }

  // ----- edited lines stay lines -----

  lemma WordsUnbroken(tokens: seq<string>)
    requires Words(tokens)
    ensures Unbroken(Join(tokens, " "))
  {
    forall i | 0 <= i < |tokens| ensures '\n' !in tokens[i] && '\r' !in tokens[i] {
      assert Word(tokens[i]) && IsSpace('\n') && IsSpace('\r');
    }
    JoinExcludes(tokens, '\n');
    JoinExcludes(tokens, '\r');
  }

  lemma PartUnbroken(line: string, i: nat, j: nat)
    requires Unbroken(line) && i <= j <= |line|
    ensures Unbroken(line[i..j])
  {
  }

  lemma ViewUnbroken(d: Dialect, line: string)
    requires Unbroken(line) && ViewOf(d, line).Some?
    ensures Unbroken(ViewOf(d, line).value.prefix) && Unbroken(ViewOf(d, line).value.suffix)
  {
    var eq := Find(line, '=');
    match d
    case Grub(_) =>
      PartUnbroken(line, 0, eq);
      PartUnbroken(line, eq + 1, |line|);
      QuotedUnbroken(line[eq + 1..]);
    case SystemdBoot(_) => PartUnbroken(line, 0, WhitespaceLength(line));
    case Mkinitcpio => PartUnbroken(line, 0, eq);
  }

  lemma QuotedUnbroken(value: string)
    requires Unbroken(value) && ParseQuotedValue(value).Some?
    ensures var q := ParseQuotedValue(value).value; Unbroken(q.quote) && Unbroken(q.tail)
  {
    var q := ParseQuotedValue(value).value;
    if q.quote != "" {
      PartUnbroken(value, |q.inner| + 2, |value|);
    }
  }

  lemma EditUnbroken(d: Dialect, line: string)
    requires CleanDialect(d) && Unbroken(line) && Edit(d, line).Some?
    ensures Unbroken(Edit(d, line).value)
  {
    var v := ViewOf(d, line).value;
    ViewTokensAreWords(d, line);
    AddMissingWords(v.tokens, d.Wanted());
    WordsUnbroken(AddMissing(v.tokens, d.Wanted()));
    ViewUnbroken(d, line);
  }

  ghost predicate SettledExtra(d: Dialect) {
    && IsTarget(d, Extra(d)) && Unbroken(Extra(d)) && Steady(d, Extra(d))
    && ViewOf(d, Extra(d)).Some?
    && ViewOf(d, Extra(d)).value.tokens == d.Wanted()
    && ViewOf(d, Extra(d)).value.Render() == Extra(d)
  }

  lemma UnbrokenAround(a: string, b: string, c: string)
    requires Unbroken(a) && Unbroken(b) && Unbroken(c)
    ensures Unbroken(a + b + c)
  {
  }

  lemma TargetVarFacts()
    ensures '=' !in TARGET_VAR && Unbroken(TARGET_VAR)
    ensures Trim(TARGET_VAR) == TARGET_VAR && TrimStart(TARGET_VAR) == TARGET_VAR && TARGET_VAR[0] != '#'
  {
    hide TrimStart, TrimEnd, Trim;
    TargetVarEnds(TARGET_VAR);
    TrimFixed(TARGET_VAR);
    LeadingOf("", TARGET_VAR);
    assert "" + TARGET_VAR == TARGET_VAR;
  }

  lemma TargetVarEnds(s: string)
    requires s == TARGET_VAR
    ensures s[0] == 'G' && s[|s| - 1] == 'T' && '=' !in s && '\n' !in s && '\r' !in s
  {
  }

  /** An assignment of quoted words reads back as those words. */
  lemma QuotedAssignment(key: string, words: seq<string>)
    requires '=' !in key && Words(words) && forall i | 0 <= i < |words| :: '"' !in words[i]
    ensures var line := key + "=" + ("\"" + Join(words, " ") + "\"");
      GrubView(line) == Some(View(key + "=" + "\"", words, "\"" + "")) && !BlankThenQuote(line)
  {
    hide Tokens, Join, IsSpace, Words, Find, ParseQuotedValue;
    var joined := Join(words, " ");
    var value := "\"" + joined + "\"";
    assert value == ['"'] + joined + (['"'] + "");
    TokensOfJoin(words);
    JoinExcludes(words, '"');
    ParseBack('"', joined, "");
    SplitAtEquals(key, value);
    QuoteIsNoSpace('"');
  }

  lemma QuotedUnbrokenLine(key: string, words: seq<string>)
    requires Unbroken(key) && Words(words)
    ensures Unbroken(key + "=" + ("\"" + Join(words, " ") + "\""))
  {
    WordsUnbroken(words);
    UnbrokenAround("\"", Join(words, " "), "\"");
    UnbrokenAround(key, "=", "\"" + Join(words, " ") + "\"");
  }

  lemma GrubExtra(params: seq<string>)
    requires CleanDialect(Grub(params))
    ensures SettledExtra(Grub(params))
  {
    TargetVarFacts();
    var key, joined := TARGET_VAR, Join(params, " ");
    forall i | 0 <= i < |params| ensures Word(params[i]) && '"' !in params[i] {
      assert CleanParam(params[i]);
    }
    QuotedAssignment(key, params);
    QuotedUnbrokenLine(key, params);
    GrubTargetKey(key, "\"" + joined + "\"");
    QuotedRender(key, joined);
  }

  lemma QuotedRender(key: string, joined: string)
    ensures key + "=\"" + joined + "\"" == key + "=" + ("\"" + joined + "\"") ==
      (key + "=" + "\"") + joined + ("\"" + "")
  {
  }

  lemma OptionsLine(joined: string)
    requires joined != "" && !IsSpace(joined[0]) && !IsSpace(joined[|joined| - 1])
    ensures var line := "options " + joined;
      IsTarget(SystemdBoot([]), line) && SystemdView(line) == View("" + "options ", Tokens(joined), "")
  {
    hide IsSpace, Tokens, OptionsValue, WordLength;
    var line := "options " + joined;
    OptionsParse(joined);
    OptionsStart(joined);
    LeadingOf("", line);
    assert "" + line == line;
  }

  lemma OptionsStart(joined: string)
    ensures var line := "options " + joined; line[0] == 'o' && !IsSpace(line[0])
  {
  }

  lemma SystemdExtra(params: seq<string>)
    requires CleanDialect(SystemdBoot(params))
    ensures SettledExtra(SystemdBoot(params))
  {
    hide Join, Words, Tokens, SystemdView, CleanDialect, IsSpace;
    var joined := Join(params, " ");
    WantedAreWords(SystemdBoot(params));
    CleanWanted(SystemdBoot(params));
    TokensOfJoin(params);
    WordsUnbroken(params);
    JoinOfWordsIsTrimmed(params);
    OptionsLine(joined);
    UnbrokenAround("options ", joined, "");
    assert "options " + joined + "" == "options " + joined;
    assert "" + "options " + joined + "" == "options " + joined;
  }

  /** An array of words reads back as those words. */
  lemma ArrayAssignment(words: seq<string>)
    requires Words(words)
    ensures var line := "MODULES" + "=" + ("(" + Join(words, " ") + ")");
      MkinitcpioView(line) == Some(View("MODULES" + "=(", words, ")"))
  {
    var joined := Join(words, " ");
    TokensOfJoin(words);
    SplitAtEquals("MODULES", "(" + joined + ")");
    ArrayParse(joined);
  }

  lemma ArrayLine(joined: string)
    ensures var line := "MODULES" + "=" + ("(" + joined + ")");
      IsTarget(Mkinitcpio, line) && line == "MODULES=(" + joined + ")" == "MODULES" + "=(" + joined + ")"
  {
    var line := "MODULES=(" + joined + ")";
    assert line[..8] == "MODULES=" && line[0] == 'M';
    LeadingOf("", line);
    assert "" + line == line;
  }

  lemma MkinitcpioExtra(words: seq<string>)
    requires words == VFIO_MODULES && Words(words)
    ensures SettledExtra(Mkinitcpio)
  {
    hide Join, Words, MkinitcpioView;
    var joined := Join(words, " ");
    ArrayAssignment(words);
    ArrayLine(joined);
    WordsUnbroken(words);
    UnbrokenAround("MODULES=(", joined, ")");
    assert Extra(Mkinitcpio) == "MODULES=(" + joined + ")";
  }

  /** The appended line is a target that already has every word. */
  lemma ExtraIsSettled(d: Dialect)
    requires CleanDialect(d)
    ensures SettledExtra(d) && Edit(d, Extra(d)) == Some(Extra(d))
  {
    match d {
      case Grub(params) => GrubExtra(params);
      case SystemdBoot(params) => SystemdExtra(params);
      case Mkinitcpio => MkinitcpioExtra(VFIO_MODULES);
    }
    AddMissingNothing(d.Wanted(), d.Wanted());
    var v := ViewOf(d, Extra(d)).value;
    assert v.(tokens := v.tokens) == v;
  }
}
