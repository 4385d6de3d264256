/** The core map in terms of the lines of `/proc/cpuinfo`. */
module CpuBlocks {
  import opened Wrappers
  import opened Text
  import opened Sorting
  import opened CpuList
  import opened CpuDetect

  // ----- one value on a line -----

  ghost predicate AllSpace(s: string) {
    forall k | 0 <= k < |s| :: IsSpace(s[k])
  }

  /** A field as the kernel writes it: its name, a colon and a decimal number, with blanks anywhere between. */
  lemma FieldValue(name: string, gap: string, lead: string, n: u32, trail: string)
    requires ':' !in gap && AllSpace(lead) && AllSpace(trail)
    ensures var line := name + gap + ":" + (lead + Show(n) + trail); ParseColonU32(line[|name|..]) == Some(n)
  {
    hide Show, ParseU32, Trim, IsSpace, Split;
    var digits := Show(n);
    var value := lead + digits + trail;
    assert (name + gap + ":" + value)[|name|..] == gap + ":" + value;
    DigitsArePlain(n);
    ParseShow(n);
    TrimSpaces(lead, digits, trail);
    NoColon(lead, n, trail);
    SplitAppend(gap, ':', value);
    SplitNone(value, ':');
  }

  lemma NoColon(lead: string, n: u32, trail: string)
    requires AllSpace(lead) && AllSpace(trail)
    ensures ':' !in lead + Show(n) + trail
  {
    var digits := Show(n);
    assert forall k | 0 <= k < |digits| :: IsDigit(digits[k]);
    assert !IsSpace(':') && !IsDigit(':');
  }

  lemma TrimSpaces(lead: string, core: string, trail: string)
    requires AllSpace(lead) && AllSpace(trail) && Word(core)
    ensures Trim(lead + core + trail) == core
  {
    hide IsSpace;
    assert lead + core + trail == lead + (core + trail);
    SkipSpaces(lead, core + trail);
    DropSpaces(core, trail);
  }

  lemma SkipSpaces(lead: string, rest: string)
    requires AllSpace(lead) && rest != "" && !IsSpace(rest[0])
    ensures TrimStart(lead + rest) == rest
  {
    hide IsSpace;
    if lead == "" {
      assert lead + rest == rest;
    } else {
      var s := lead + rest;
      assert s[1..] == lead[1..] + rest && s[0] == lead[0];
      SkipSpaces(lead[1..], rest);
    }
  }

  lemma DropSpaces(rest: string, trail: string)
    requires AllSpace(trail) && rest != "" && !IsSpace(rest[|rest| - 1])
    ensures TrimEnd(rest + trail) == rest
  {
    hide IsSpace;
    if trail == "" {
      assert rest + trail == rest;
    } else {
      var s, n := rest + trail, |trail| - 1;
      assert s[..|s| - 1] == rest + trail[..n] && s[|s| - 1] == trail[n];
      DropSpaces(rest, trail[..n]);
    }
  }

  // ----- blocks -----

  /** Lines `a` to `b` are a maximal run without a blank line. */
  ghost predicate IsBlock(lines: seq<string>, a: nat, b: nat) {
    && a <= b <= |lines|
    && (a == 0 || Blank(lines[a - 1]))
    && (b == |lines| || Blank(lines[b]))
    && forall i | a <= i < b :: !Blank(lines[i])
  }

  /** The last line of the run that starts with `name`, if there is one, says `v`. */
  ghost predicate Says(lines: seq<string>, a: nat, b: nat, name: string, v: Option<u32>)
    requires a <= b <= |lines|
  {
    || (v == None && forall i | a <= i < b :: !(name <= lines[i]))
    || exists i :: a <= i < b && LastOf(lines, b, name, i) && v == ParseColonU32(lines[i][|name|..])
  }

  ghost predicate LastOf(lines: seq<string>, b: nat, name: string, i: nat)
    requires i < b <= |lines|
  {
    name <= lines[i] && forall j | i < j < b :: !(name <= lines[j])
  }

  /** The block of lines `a` to `b` names processor `t` and places it. */
  ghost predicate Places(lines: seq<string>, a: nat, b: nat, package: u32, core: u32, t: u32) {
    && IsBlock(lines, a, b)
    && Says(lines, a, b, "processor", Some(t))
    && Says(lines, a, b, "core id", Some(core))
    && (Says(lines, a, b, "physical id", Some(package)) || (package == 0 && Says(lines, a, b, "physical id", None)))
  }

  /** Some block places processor `t` on that core of that package. */
  ghost predicate IsPlaced(lines: seq<string>, package: u32, core: u32, t: u32) {
    exists a, b :: Places(lines, a, b, package, core, t)
  }

  lemma SaysNext(lines: seq<string>, a: nat, b: nat, name: string, v: Option<u32>)
    requires a <= b < |lines| && Says(lines, a, b, name, v)
    ensures Says(lines, a, b + 1, name, if name <= lines[b] then ParseColonU32(lines[b][|name|..]) else v)
  {
    hide ParseColonU32;
    if name <= lines[b] {
      assert LastOf(lines, b + 1, name, b);
    } else if exists i :: a <= i < b && LastOf(lines, b, name, i) && v == ParseColonU32(lines[i][|name|..]) {
      var i :| a <= i < b && LastOf(lines, b, name, i) && v == ParseColonU32(lines[i][|name|..]);
      assert LastOf(lines, b + 1, name, i);
    }
  }

  lemma SaysOne(lines: seq<string>, a: nat, b: nat, name: string, v: Option<u32>, w: Option<u32>)
    requires a <= b <= |lines| && Says(lines, a, b, name, v) && Says(lines, a, b, name, w)
    ensures v == w
  {
    hide ParseColonU32;
  }

  /** The three names are told apart by how they start. */
  lemma NamesApart(line: string, processor: string, physical: string, core: string)
    requires processor == "processor" && physical == "physical id" && core == "core id"
    ensures processor <= line ==> !(physical <= line) && !(core <= line)
    ensures physical <= line ==> !(core <= line)
  {
    if processor <= line {
      assert line[1] == processor[1];
    }
    if physical <= line {
      assert line[0] == physical[0] && line[1] == physical[1];
    }
  }

  /** What has been read of the block begun at `a` when line `m` is reached. */
  lemma BlockSoFar(lines: seq<string>, a: nat, m: nat)
    requires a <= m <= |lines| && (a == 0 || Blank(lines[a - 1])) && forall i | a <= i < m :: !Blank(lines[i])
    ensures var block := BlockAfter(lines[..m]);
      && Says(lines, a, m, "processor", block.processor)
      && Says(lines, a, m, "physical id", block.physicalId)
      && Says(lines, a, m, "core id", block.coreId)
  {
    hide Blank, Says, ParseColonU32;
    if m == a {
      BlockStart(lines, a);
    } else {
      BlockSoFar(lines, a, m - 1);
      assert lines[..m][..m - 1] == lines[..m - 1];
      var block := BlockAfter(lines[..m - 1]);
      SaysNext(lines, a, m - 1, "processor", block.processor);
      SaysNext(lines, a, m - 1, "physical id", block.physicalId);
      SaysNext(lines, a, m - 1, "core id", block.coreId);
      NamesApart(lines[m - 1], "processor", "physical id", "core id");
    }
  }

  lemma BlockStart(lines: seq<string>, a: nat)
    requires a <= |lines| && (a == 0 || Blank(lines[a - 1]))
    ensures BlockAfter(lines[..a]) == NO_BLOCK
    ensures forall name :: Says(lines, a, a, name, None)
  {
    if a > 0 {
      assert lines[..a][a - 1] == lines[a - 1];
    }
  }

  lemma StartOfBlock(lines: seq<string>, b: nat) returns (a: nat)
    requires b <= |lines|
    ensures a <= b && (a == 0 || Blank(lines[a - 1])) && forall i | a <= i < b :: !Blank(lines[i])
  {
    hide Blank;
    if b == 0 || Blank(lines[b - 1]) {
      a := b;
    } else {
      a := StartOfBlock(lines, b - 1);
    }
  }

  // ----- the records are the blocks -----

  ghost predicate EndsAt(lines: seq<string>, b: nat, r: Record) {
    b <= |lines| && r in Emit(BlockAfter(lines[..b]))
  }

  lemma ClosedAt(lines: seq<string>, m: nat, r: Record)
    requires m <= |lines|
    ensures r in ClosedRecords(lines[..m]) <==> exists b :: 0 <= b < m && Blank(lines[b]) && EndsAt(lines, b, r)
  {
    hide Blank, BlockAfter, Emit;
    if m > 0 {
      ClosedAt(lines, m - 1, r);
      assert lines[..m][..m - 1] == lines[..m - 1] && lines[..m][m - 1] == lines[m - 1];
    }
  }

  lemma RecordsEnd(lines: seq<string>, r: Record)
    ensures r in ClosedRecords(lines) + Emit(BlockAfter(lines)) <==>
      exists b :: 0 <= b <= |lines| && (b == |lines| || Blank(lines[b])) && EndsAt(lines, b, r)
  {
    hide Blank, BlockAfter, Emit, ClosedRecords;
    ClosedAt(lines, |lines|, r);
    assert lines[..|lines|] == lines;
    assert EndsAt(lines, |lines|, r) <==> r in Emit(BlockAfter(lines));
  }

  lemma EndIsPlaced(lines: seq<string>, a: nat, b: nat, package: u32, core: u32, t: u32)
    requires IsBlock(lines, a, b)
    ensures EndsAt(lines, b, Record((package, core), t)) <==> Places(lines, a, b, package, core, t)
  {
    hide Says, Blank, BlockAfter;
    BlockSoFar(lines, a, b);
    var block := BlockAfter(lines[..b]);
    if Places(lines, a, b, package, core, t) {
      SaysOne(lines, a, b, "processor", block.processor, Some(t));
      SaysOne(lines, a, b, "core id", block.coreId, Some(core));
      if Says(lines, a, b, "physical id", Some(package)) {
        SaysOne(lines, a, b, "physical id", block.physicalId, Some(package));
      } else {
        SaysOne(lines, a, b, "physical id", block.physicalId, None);
      }
    }
  }

  /** What is recorded of the file is what its blocks say: the package is 0 unless a block gives one. */
  lemma RecordedIffPlaced(cpuinfo: string, package: u32, core: u32, t: u32)
    ensures Record((package, core), t) in Records(cpuinfo) <==> IsPlaced(Lines(cpuinfo), package, core, t)
  {
    hide Blank, Lines, ClosedRecords, Emit, BlockAfter, EndsAt, Says;
    var lines, r := Lines(cpuinfo), Record((package, core), t);
    RecordsEnd(lines, r);
    forall b | 0 <= b <= |lines| && (b == |lines| || Blank(lines[b])) && EndsAt(lines, b, r)
      ensures IsPlaced(lines, package, core, t)
    {
      var a := StartOfBlock(lines, b);
      EndIsPlaced(lines, a, b, package, core, t);
    }
    forall a, b | Places(lines, a, b, package, core, t) ensures EndsAt(lines, b, r) {
      EndIsPlaced(lines, a, b, package, core, t);
    }
  }

  // ----- the core map -----

  lemma OnCore(cpuinfo: string, keys: seq<Key>, cores: map<u32, seq<u32>>, c: u32, t: u32)
    requires Indexed(Records(cpuinfo), keys, cores) && |keys| < TWO_TO_THE_32 && c in cores
    ensures c as int < |keys|
    ensures t in cores[c] <==> IsPlaced(Lines(cpuinfo), keys[c as int].0, keys[c as int].1, t)
  {
    hide Records, Sort, ProcsOf, IsPlaced;
    var key := keys[c as int];
    var procs := ProcsOf(Records(cpuinfo), key);
    LeqIsTotalOrder();
    SortIsSorted(Leq, procs);
    assert t in multiset(cores[c]) <==> t in multiset(procs);
    ProcsMember(Records(cpuinfo), key, t);
    RecordedIffPlaced(cpuinfo, key.0, key.1, t);
  }

  /**
   * Two processors share a core exactly if the file has a block for each with the same package
   * and core numbers.
   */
  lemma ShareCoreIff(cpuinfo: string, keys: seq<Key>, cores: map<u32, seq<u32>>, t: u32, u: u32)
    requires Indexed(Records(cpuinfo), keys, cores) && |keys| < TWO_TO_THE_32
    ensures (exists c :: c in cores && t in cores[c] && u in cores[c]) <==>
      exists package, core ::
        IsPlaced(Lines(cpuinfo), package, core, t) && IsPlaced(Lines(cpuinfo), package, core, u)
  {
    hide IsPlaced, Sort, ProcsOf, Records;
    forall c | c in cores && t in cores[c] && u in cores[c]
      ensures exists package, core ::
        IsPlaced(Lines(cpuinfo), package, core, t) && IsPlaced(Lines(cpuinfo), package, core, u)
    {
      OnCore(cpuinfo, keys, cores, c, t);
      OnCore(cpuinfo, keys, cores, c, u);
    }
    forall package, core | IsPlaced(Lines(cpuinfo), package, core, t) && IsPlaced(Lines(cpuinfo), package, core, u)
      ensures exists c :: c in cores && t in cores[c] && u in cores[c]
    {
      var c := CoreOf(cpuinfo, keys, cores, package, core, t);
      OnCore(cpuinfo, keys, cores, c, t);
      OnCore(cpuinfo, keys, cores, c, u);
    }
  }

  lemma CoreOf(cpuinfo: string, keys: seq<Key>, cores: map<u32, seq<u32>>, package: u32, core: u32, t: u32)
    returns (c: u32)
    requires Indexed(Records(cpuinfo), keys, cores) && |keys| < TWO_TO_THE_32
    requires IsPlaced(Lines(cpuinfo), package, core, t)
    ensures c in cores && c as int < |keys| && keys[c as int] == (package, core)
  {
    hide Records, Sort, ProcsOf, IsPlaced;
    var key := (package, core);
    RecordedIffPlaced(cpuinfo, package, core, t);
    ProcsMember(Records(cpuinfo), key, t);
    assert key in keys;
    var k :| 0 <= k < |keys| && keys[k] == key;
    c := k as u32;
  }

  /** Cores are numbered by package first and core number second. */
  lemma CoresInOrder(cpuinfo: string, keys: seq<Key>, cores: map<u32, seq<u32>>, c: u32, d: u32)
    returns (p: Key, q: Key)
    requires Indexed(Records(cpuinfo), keys, cores) && |keys| < TWO_TO_THE_32
    requires c in cores && d in cores && c < d
    ensures p.0 < q.0 || (p.0 == q.0 && p.1 < q.1)
    ensures forall t :: t in cores[c] <==> IsPlaced(Lines(cpuinfo), p.0, p.1, t)
    ensures forall t :: t in cores[d] <==> IsPlaced(Lines(cpuinfo), q.0, q.1, t)
  {
    hide Records, Sort, ProcsOf, IsPlaced, Lines;
    assert c as int < |keys| && d as int < |keys|;
    p, q := keys[c as int], keys[d as int];
    forall t ensures t in cores[c] <==> IsPlaced(Lines(cpuinfo), p.0, p.1, t) {
      OnCore(cpuinfo, keys, cores, c, t);
    }
    forall t ensures t in cores[d] <==> IsPlaced(Lines(cpuinfo), q.0, q.1, t) {
      OnCore(cpuinfo, keys, cores, d, t);
    }
  }

  // ----- without blocks -----

  /** The line begins with the word, after blanks at most. */
  ghost predicate Begins(line: string, word: string) {
    exists lead, rest :: AllSpace(lead) && line == lead + word + rest
  }

  lemma BeginsIs(line: string, word: string)
    requires word == "processor"
    ensures MentionsProcessor(line) <==> Begins(line, word)
  {
    if MentionsProcessor(line) {
      var lead := StartSpaces(line);
      var rest := TrimStart(line)[|word|..];
      assert TrimStart(line) == word + rest;
      assert line == lead + word + rest;
    }
    if Begins(line, word) {
      var lead, rest :| AllSpace(lead) && line == lead + word + rest;
      assert line == lead + (word + rest) && (word + rest)[0] == 'p' && !IsSpace('p');
      SkipSpaces(lead, word + rest);
    }
  }

  lemma StartSpaces(s: string) returns (lead: string)
    ensures AllSpace(lead) && s == lead + TrimStart(s)
  {
    if s != "" && IsSpace(s[0]) {
      var rest := StartSpaces(s[1..]);
      lead := [s[0]] + rest;
      assert s == [s[0]] + s[1..];
    } else {
      lead := "";
    }
  }

  lemma ProcessorLinesAt(lines: seq<string>) returns (at: seq<nat>)
    ensures |at| == ProcessorLines(lines)
    ensures forall j, k | 0 <= j < k < |at| :: at[j] < at[k]
    ensures forall k | 0 <= k < |at| :: at[k] < |lines|
    ensures forall i: nat | i < |lines| :: i in at <==> Begins(lines[i], "processor")
  {
    hide Begins, MentionsProcessor;
    if lines == [] {
      at := [];
    } else {
      var n := |lines| - 1;
      var front := ProcessorLinesAt(lines[..n]);
      BeginsIs(lines[n], "processor");
      at := front + if MentionsProcessor(lines[n]) then [n] else [];
      assert forall i | 0 <= i < n :: lines[..n][i] == lines[i];
    }
  }

  /** A file without a usable block has as many cores, of one thread each, as lines that begin with `processor`. */
  lemma FallbackCores(cpuinfo: string, cores: map<u32, seq<u32>>) returns (at: seq<nat>)
    requires Fallback(cpuinfo, cores)
    ensures forall j, k | 0 <= j < k < |at| :: at[j] < at[k]
    ensures forall i: nat :: i in at <==> i < |Lines(cpuinfo)| && Begins(Lines(cpuinfo)[i], "processor")
    ensures forall c: u32 :: c in cores <==> c as int < |at| % TWO_TO_THE_32
    ensures forall c | c in cores :: cores[c] == [c]
  {
    hide Lines, Begins;
    at := ProcessorLinesAt(Lines(cpuinfo));
  }
}
