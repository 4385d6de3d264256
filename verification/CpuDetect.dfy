/** Reading the processor blocks of `/proc/cpuinfo` into a map from cores to their threads. */
module CpuDetect {
  import opened Wrappers
  import opened Text
  import opened Sorting
  import opened CpuList
  import opened CpuTopology

  // ----- blocks and what they record -----

  datatype Block = Block(processor: Option<u32>, physicalId: Option<u32>, coreId: Option<u32>)

  const NO_BLOCK := Block(None, None, None)

  /** A core is known by its package and its number within the package. */
  type Key = (u32, u32)

  datatype Record = Record(key: Key, processor: u32)

  function ParseColonU32(s: string): Option<u32> {
    var fields := Split(s, ':');
    if |fields| < 2 then None else ParseU32(Trim(fields[1]))
  }

  predicate Blank(line: string) {
    Trim(line) == ""
  }

  function Feed(b: Block, line: string): Block {
    if Blank(line) then NO_BLOCK
    else if "processor" <= line then b.(processor := ParseColonU32(line[|"processor"|..]))
    else if "physical id" <= line then b.(physicalId := ParseColonU32(line[|"physical id"|..]))
    else if "core id" <= line then b.(coreId := ParseColonU32(line[|"core id"|..]))
    else b
  }

  /** A block counts once its processor and core are known; the package defaults to 0. */
  function Emit(b: Block): seq<Record> {
    if b.processor.Some? && b.coreId.Some? then
      [Record((if b.physicalId.Some? then b.physicalId.value else 0, b.coreId.value), b.processor.value)]
    else []
  }

  function BlockAfter(lines: seq<string>): Block {
    if lines == [] then NO_BLOCK else Feed(BlockAfter(lines[..|lines| - 1]), lines[|lines| - 1])
  }

  /** The blocks closed by a blank line. */
  function ClosedRecords(lines: seq<string>): seq<Record> {
    if lines == [] then []
    else
      var front := lines[..|lines| - 1];
      ClosedRecords(front) + (if Blank(lines[|lines| - 1]) then Emit(BlockAfter(front)) else [])
  }

  function Records(cpuinfo: string): seq<Record> {
    ClosedRecords(Lines(cpuinfo)) + Emit(BlockAfter(Lines(cpuinfo)))
  }

  /** The processors recorded for one core, in file order. */
  function ProcsOf(records: seq<Record>, key: Key): seq<u32> {
    if records == [] then []
    else
      var last := records[|records| - 1];
      ProcsOf(records[..|records| - 1], key) + (if last.key == key then [last.processor] else [])
  }

  ghost predicate Grouped(m: map<Key, seq<u32>>, records: seq<Record>) {
    && (forall k :: k in m <==> ProcsOf(records, k) != [])
    && (forall k | k in m :: m[k] == ProcsOf(records, k))
  }

  method RecordCpuBlock(m: map<Key, seq<u32>>, b: Block, ghost records: seq<Record>) returns (more: map<Key, seq<u32>>)
    requires Grouped(m, records)
    ensures Grouped(more, records + Emit(b))
  {
    more := m;
    if b.processor.Some? && b.coreId.Some? {
      var key := (if b.physicalId.Some? then b.physicalId.value else 0, b.coreId.value);
      more := m[key := (if key in m then m[key] else []) + [b.processor.value]];
      ghost var r := Record(key, b.processor.value);
      assert (records + [r])[..|records|] == records;
    } else {
      assert records + [] == records;
    }
  }

  predicate KeyLeq(a: Key, b: Key) {
    a.0 < b.0 || (a.0 == b.0 && a.1 <= b.1)
  }

  lemma KeyLeqIsTotalOrder()
    ensures TotalOrder(KeyLeq)
  {
  }

  // ----- the core map -----

  predicate MentionsProcessor(line: string) {
    "processor" <= TrimStart(line)
  }

  function ProcessorLines(lines: seq<string>): nat {
    if lines == [] then 0
    else ProcessorLines(lines[..|lines| - 1]) + if MentionsProcessor(lines[|lines| - 1]) then 1 else 0
  }

  /** Without a single usable block every processor line stands for a core of its own. */
  ghost predicate Fallback(cpuinfo: string, cores: map<u32, seq<u32>>) {
    var count := ProcessorLines(Lines(cpuinfo)) % TWO_TO_THE_32;
    && (forall i: u32 :: i in cores <==> i as int < count)
    && (forall i | i in cores :: cores[i] == [i])
  }

  /** Core `i` is the `i`-th key in order; its threads are sorted. */
  ghost predicate Indexed(records: seq<Record>, keys: seq<Key>, cores: map<u32, seq<u32>>) {
    && StrictlySorted(KeyLeq, keys)
    && (forall k :: k in keys <==> ProcsOf(records, k) != [])
    && (|keys| < TWO_TO_THE_32 ==>
          && (forall i: u32 :: i in cores <==> i as int < |keys|)
          && (forall i | i in cores :: i as int < |keys| && cores[i] == Sort(Leq, ProcsOf(records, keys[i as int]))))
  }

  method BuildCoreThreadMap(cpuinfo: string) returns (cores: map<u32, seq<u32>>, ghost keys: seq<Key>)
    ensures Records(cpuinfo) == [] ==> Fallback(cpuinfo, cores)
    ensures Records(cpuinfo) != [] ==> Indexed(Records(cpuinfo), keys, cores)
  {
    hide Feed, ParseU32, Sort, Trim, TrimStart, Split;
    var lines := Lines(cpuinfo);
    var physicalCores: map<Key, seq<u32>> := map[];
    var current := NO_BLOCK;
    for i := 0 to |lines|
      invariant current == BlockAfter(lines[..i])
      invariant Grouped(physicalCores, ClosedRecords(lines[..i]))
    {
      assert lines[..i + 1][..i] == lines[..i];
      ghost var before := ClosedRecords(lines[..i]);
      var fed := FeedLine(current, lines[i]);
      if Blank(lines[i]) {
        physicalCores := RecordCpuBlock(physicalCores, current, before);
      } else {
        assert before + [] == before;
      }
      current := fed;
    }
    assert lines[..|lines|] == lines;
    physicalCores := RecordCpuBlock(physicalCores, current, ClosedRecords(lines));
    GroupedEmpty(physicalCores, Records(cpuinfo));
    if physicalCores == map[] {
      cores := CountProcessors(cpuinfo);
      keys := [];
    } else {
      cores, keys := IndexCores(physicalCores, Records(cpuinfo));
    }
  }

  /** One line of the file. */
  method FeedLine(b: Block, line: string) returns (next: Block)
    ensures next == Feed(b, line)
  {
    next := b;
    if Trim(line) == "" {
      next := NO_BLOCK;
    } else if "processor" <= line {
      next := b.(processor := ParseColonU32(line[|"processor"|..]));
    } else if "physical id" <= line {
      next := b.(physicalId := ParseColonU32(line[|"physical id"|..]));
    } else if "core id" <= line {
      next := b.(coreId := ParseColonU32(line[|"core id"|..]));
    }
  }

  lemma GroupedEmpty(m: map<Key, seq<u32>>, records: seq<Record>)
    requires Grouped(m, records)
    ensures m == map[] <==> records == []
  {
    if records != [] {
      var last := records[|records| - 1];
      assert last.processor in ProcsOf(records, last.key);
      assert last.key in m;
    } else {
      assert forall k :: ProcsOf(records, k) == [];
      assert m.Keys == {};
    }
  }

  method CountProcessors(cpuinfo: string) returns (cores: map<u32, seq<u32>>)
    ensures Fallback(cpuinfo, cores)
  {
    hide TrimStart;
    var lines := Lines(cpuinfo);
    var total: nat := 0;
    for i := 0 to |lines|
      invariant total == ProcessorLines(lines[..i])
    {
      assert lines[..i + 1][..i] == lines[..i];
      if MentionsProcessor(lines[i]) {
        total := total + 1;
      }
    }
    assert lines[..|lines|] == lines;
    var count := (total % TWO_TO_THE_32) as u32;
    cores := map[];
    var i: u32 := 0;
    while i < count
      invariant i <= count
      invariant forall k: u32 :: k in cores <==> k < i
      invariant forall k | k in cores :: cores[k] == [k]
    {
      cores := cores[i := [i]];
      i := i + 1;
    }
  }

  method IndexCores(
    grouped: map<Key, seq<u32>>, ghost records: seq<Record>)
    returns (cores: map<u32, seq<u32>>, keys: seq<Key>)
    requires Grouped(grouped, records)
    ensures Indexed(records, keys, cores)
  {
    hide Sort, ProcsOf;
    keys := OrderedKeys(grouped);
    cores := map[];
    for idx := 0 to |keys|
      invariant |keys| < TWO_TO_THE_32 ==>
        && (forall i: u32 :: i in cores <==> i as int < idx)
        && (forall i | i in cores :: i as int < idx && cores[i] == Sort(Leq, ProcsOf(records, keys[i as int])))
    {
      assert keys[idx] in keys;
      var threads := Sort(Leq, grouped[keys[idx]]);
      cores := cores[(idx % TWO_TO_THE_32) as u32 := threads];
    }
  }

  method OrderedKeys(grouped: map<Key, seq<u32>>) returns (keys: seq<Key>)
    ensures StrictlySorted(KeyLeq, keys) && forall k :: k in keys <==> k in grouped
  {
    hide Sort, Dedup;
    keys := [];
    var left := grouped.Keys;
    while left != {}
      invariant left <= grouped.Keys
      invariant forall k :: k in keys <==> k in grouped.Keys - left
      decreases |left|
    {
      var k :| k in left;
      keys := keys + [k];
      left := left - {k};
    }
    ghost var all := keys;
    KeyLeqIsTotalOrder();
    SortDedupCorrect(KeyLeq, all);
    keys := SortDedup(KeyLeq, keys);
  }

  method ParseTopology(cpuinfo: string) returns (cpu: CpuInfo, ghost keys: seq<Key>)
    ensures Records(cpuinfo) == [] ==> Fallback(cpuinfo, cpu.coreToThreads)
    ensures Records(cpuinfo) != [] ==> Indexed(Records(cpuinfo), keys, cpu.coreToThreads)
    ensures cpu.hasHyperthreading <==> exists c :: c in cpu.coreToThreads && |cpu.coreToThreads[c]| > 1
    ensures cpu.logicalCores as int == TotalThreads(cpu.coreToThreads, |cpu.coreToThreads|) % TWO_TO_THE_32
  {
    hide Fallback, Indexed, Records;
    var cores;
    cores, keys := BuildCoreThreadMap(cpuinfo);
    var total: nat := 0;
    for i := 0 to |cores|
      invariant total == TotalThreads(cores, i)
    {
      total := total + LengthAt(cores, i);
    }
    var threaded := exists c | c in cores :: |cores[c]| > 1;
    cpu := CpuInfo((total % TWO_TO_THE_32) as u32, threaded, cores);
  }

  function LengthAt(cores: map<u32, seq<u32>>, i: nat): nat {
    if i < TWO_TO_THE_32 && i as u32 in cores then |cores[i as u32]| else 0
  }

  /** Threads of cores 0 up to `n`. */
  function TotalThreads(cores: map<u32, seq<u32>>, n: nat): nat {
    if n == 0 then 0 else TotalThreads(cores, n - 1) + LengthAt(cores, n - 1)
  }

  // ----- the partition -----

  ghost predicate DistinctProcessors(records: seq<Record>) {
    forall i, j | 0 <= i < j < |records| :: records[i].processor != records[j].processor
  }

  ghost predicate IsRecorded(records: seq<Record>, t: u32) {
    exists r :: r in records && r.processor == t
  }

  ghost predicate HasThread(cpu: CpuInfo, t: u32) {
    exists c :: c in cpu.coreToThreads && t in cpu.coreToThreads[c]
  }

  lemma ProcsMember(records: seq<Record>, key: Key, t: u32)
    ensures t in ProcsOf(records, key) <==> Record(key, t) in records
  {
    if records != [] {
      var n := |records| - 1;
      ProcsMember(records[..n], key, t);
      assert records == records[..n] + [records[n]];
    }
  }

  lemma ProcsDistinct(records: seq<Record>, key: Key)
    requires DistinctProcessors(records)
    ensures Distinct(ProcsOf(records, key))
  {
    if records != [] {
      var n := |records| - 1;
      ProcsDistinct(records[..n], key);
      var before := ProcsOf(records[..n], key);
      forall t | t in before ensures t != records[n].processor {
        ProcsMember(records[..n], key, t);
        var i :| 0 <= i < n && records[..n][i] == Record(key, t);
        assert records[i].processor != records[n].processor;
      }
      DistinctConcat(before, [records[n].processor]);
    }
  }

  lemma CoreList(records: seq<Record>, keys: seq<Key>, cores: map<u32, seq<u32>>, c: u32)
    requires Indexed(records, keys, cores) && |keys| < TWO_TO_THE_32 && DistinctProcessors(records) && c in cores
    ensures StrictlySorted(Leq, cores[c]) && cores[c] != []
    ensures forall t :: t in cores[c] <==> Record(keys[c as int], t) in records
  {
    hide Sort;
    var procs := ProcsOf(records, keys[c as int]);
    assert keys[c as int] in keys;
    LeqIsTotalOrder();
    SortIsSorted(Leq, procs);
    ProcsDistinct(records, keys[c as int]);
    SortedDistinct(procs, cores[c]);
    assert procs[0] in procs;
    forall t ensures t in cores[c] <==> Record(keys[c as int], t) in records {
      ProcsMember(records, keys[c as int], t);
    }
  }

  /**
   * For distinct processor numbers the cores are numbered 0, 1, ... and their sorted, non-empty,
   * disjoint lists hold exactly the recorded processors.
   */
  lemma CoresPartitionProcessors(records: seq<Record>, keys: seq<Key>, cpu: CpuInfo)
    requires Indexed(records, keys, cpu.coreToThreads) && |keys| < TWO_TO_THE_32 && DistinctProcessors(records)
    ensures ThreadsApart(cpu) && NoEmptyCore(cpu)
    ensures forall c | c in cpu.coreToThreads :: StrictlySorted(Leq, cpu.coreToThreads[c])
    ensures forall t :: HasThread(cpu, t) <==> IsRecorded(records, t)
  {
    var cores := cpu.coreToThreads;
    forall c | c in cores
      ensures StrictlySorted(Leq, cores[c]) && cores[c] != []
      ensures forall t :: t in cores[c] <==> Record(keys[c as int], t) in records
    {
      CoreList(records, keys, cores, c);
    }
    forall c, d, t | c in cores && d in cores && t in cores[c] && t in cores[d] ensures c == d {
      var i :| 0 <= i < |records| && records[i] == Record(keys[c as int], t);
      var j :| 0 <= j < |records| && records[j] == Record(keys[d as int], t);
      assert i == j;
      assert keys[c as int] == keys[d as int];
    }
    forall r | r in records ensures HasThread(cpu, r.processor) {
      ProcsMember(records, r.key, r.processor);
      var k :| 0 <= k < |keys| && keys[k] == r.key;
      assert k as u32 in cores;
    }
  }

  /** The fallback map has the same shape. */
  lemma FallbackPartitions(cpuinfo: string, cpu: CpuInfo)
    requires Fallback(cpuinfo, cpu.coreToThreads)
    ensures ThreadsApart(cpu) && NoEmptyCore(cpu)
  {
  }

  /** No processor is lost or counted twice: the total is the number of recorded blocks. */
  lemma ThreadsAreRecords(records: seq<Record>, keys: seq<Key>, cores: map<u32, seq<u32>>)
    requires Indexed(records, keys, cores) && |keys| < TWO_TO_THE_32
    ensures TotalThreads(cores, |keys|) == |records|
  {
    hide Sort, ProcsOf;
    TotalByKey(records, keys, cores, |keys|);
    assert keys[..|keys|] == keys;
    KeysAreDistinct(keys);
    forall r | r in records ensures r.key in keys {
      ProcsMember(records, r.key, r.processor);
    }
    CountByKey(records, keys);
  }

  lemma KeysAreDistinct(keys: seq<Key>)
    requires StrictlySorted(KeyLeq, keys)
    ensures forall i, j | 0 <= i < j < |keys| :: keys[i] != keys[j]
  {
  }

  function CountFor(records: seq<Record>, keys: seq<Key>): nat {
    if keys == [] then 0 else CountFor(records, keys[..|keys| - 1]) + |ProcsOf(records, keys[|keys| - 1])|
  }

  lemma TotalByKey(records: seq<Record>, keys: seq<Key>, cores: map<u32, seq<u32>>, n: nat)
    requires Indexed(records, keys, cores) && n <= |keys| < TWO_TO_THE_32
    ensures TotalThreads(cores, n) == CountFor(records, keys[..n])
  {
    hide Sort, ProcsOf;
    if n > 0 {
      TotalByKey(records, keys, cores, n - 1);
      assert keys[..n][..n - 1] == keys[..n - 1];
      LeqIsTotalOrder();
      SortIsSorted(Leq, ProcsOf(records, keys[n - 1]));
      assert (n - 1) as u32 in cores;
      SameSize(cores[(n - 1) as u32], ProcsOf(records, keys[n - 1]));
    }
  }

  lemma SameSize(a: seq<u32>, b: seq<u32>)
    requires multiset(a) == multiset(b)
    ensures |a| == |b|
  {
    assert |multiset(a)| == |a| && |multiset(b)| == |b|;
  }

  lemma CountByKey(records: seq<Record>, keys: seq<Key>)
    requires forall i, j | 0 <= i < j < |keys| :: keys[i] != keys[j]
    requires forall r | r in records :: r.key in keys
    ensures CountFor(records, keys) == |records|
  {
    if records == [] {
      CountOfNothing(keys);
    } else {
      var n := |records| - 1;
      assert records[n] in records && forall r | r in records[..n] :: r in records;
      CountByKey(records[..n], keys);
      CountSnoc(records, keys);
    }
  }

  lemma CountOfNothing(keys: seq<Key>)
    ensures CountFor([], keys) == 0
  {
  }

  lemma ProcsSnoc(records: seq<Record>, key: Key)
    requires records != []
    ensures var n := |records| - 1;
      |ProcsOf(records, key)| == |ProcsOf(records[..n], key)| + if records[n].key == key then 1 else 0
  {
  }

  lemma CountStep(records: seq<Record>, keys: seq<Key>)
    requires keys != []
    ensures var k := |keys| - 1; CountFor(records, keys) == CountFor(records, keys[..k]) + |ProcsOf(records, keys[k])|
  {
  }

  /** One more record adds one to the count of its own key and to no other. */
  lemma CountSnoc(records: seq<Record>, keys: seq<Key>)
    requires records != []
    requires forall i, j | 0 <= i < j < |keys| :: keys[i] != keys[j]
    ensures var n := |records| - 1;
      CountFor(records, keys) == CountFor(records[..n], keys) + if records[n].key in keys then 1 else 0
  {
    hide ProcsOf, CountFor;
    var last, front := records[|records| - 1], records[..|records| - 1];
    if keys == [] {
      NoKeys(records);
      NoKeys(front);
    } else {
      var k := |keys| - 1;
      var before := keys[..k];
      CountSnoc(records, before);
      CountStep(records, keys);
      CountStep(front, keys);
      ProcsSnoc(records, keys[k]);
      assert keys == before + [keys[k]];
      if last.key == keys[k] {
        assert keys[k] !in before;
      }
    }
  }

  lemma NoKeys(records: seq<Record>)
    ensures CountFor(records, []) == 0
  {
  }

  /**
   * From the file to the pins: with distinct processor numbers, every pinned vCPU has a recorded
   * processor of its own that the emulator's set does not contain.
   */
  lemma CpuinfoToPins(cpuinfo: string, keys: seq<Key>, cpu: CpuInfo, vcpuCount: u32, plan: PinningPlan, i: nat)
    requires Records(cpuinfo) != [] && Indexed(Records(cpuinfo), keys, cpu.coreToThreads)
    requires |keys| < TWO_TO_THE_32 && DistinctProcessors(Records(cpuinfo))
    requires Pinned(cpu, vcpuCount, plan) && i < |plan.vcpuPins|
    ensures var t := ParseU32(plan.vcpuPins[i].1);
      && t.Some? && IsRecorded(Records(cpuinfo), t.value)
      && t.value !in PartsIds(Parts(plan.emulatorCpuset))
    ensures plan.vcpuPins[i].0 as int == i && forall j | 0 <= j < i :: plan.vcpuPins[j].1 != plan.vcpuPins[i].1
    ensures |plan.hostCores| >= (if |plan.vmCores + plan.hostCores| >= 8 then 2 else 1)
  {
    hide Records, ParseU32, PartsIds, Parts, Indexed, Show;
    CoresPartitionProcessors(Records(cpuinfo), keys, cpu);
    PinsAreApart(cpu, vcpuCount, plan, i);
    var vm := AllThreads(cpu, plan.vmCores);
    ThreadOwner(cpu, plan.vmCores, vm[i]);
    ParseShow(vm[i]);
    HostKeepsCores(cpu, vcpuCount, plan);
  }
}
