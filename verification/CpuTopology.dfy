/** Dividing the physical cores between the VM and the host. */
module CpuTopology {
  import opened Sorting
  import opened CpuList

  datatype CpuInfo = CpuInfo(logicalCores: u32, hasHyperthreading: bool, coreToThreads: map<u32, seq<u32>>)

  datatype PinningPlan = PinningPlan(
    vcpuPins: seq<(u32, string)>, emulatorCpuset: string, vmCores: seq<u32>, hostCores: seq<u32>)

  function Min(a: nat, b: nat): nat {
    if a < b then a else b
  }

  function ThreadsOf(cpu: CpuInfo, core: u32): seq<u32> {
    if core in cpu.coreToThreads then cpu.coreToThreads[core] else []
  }

  /** The threads of some cores, core by core. */
  function AllThreads(cpu: CpuInfo, cores: seq<u32>): seq<u32> {
    if cores == [] then [] else AllThreads(cpu, cores[..|cores| - 1]) + ThreadsOf(cpu, cores[|cores| - 1])
  }

  function ShowAll(ids: seq<u32>): seq<string> {
    seq(|ids|, i requires 0 <= i < |ids| => Show(ids[i]))
  }

  /** vCPU `i` goes to the `i`-th thread of the VM's cores. */
  function Pins(threads: seq<u32>, count: nat): seq<(u32, string)>
    requires count <= |threads| && count < TWO_TO_THE_32
  {
    seq(count, i requires 0 <= i < count => (i as u32, Show(threads[i])))
  }

  function ThreadsPerCore(cpu: CpuInfo): u32 {
    if cpu.hasHyperthreading then 2 else 1
  }

  function CoresWanted(cpu: CpuInfo, vcpuCount: u32): nat {
    var wanted := (vcpuCount / ThreadsPerCore(cpu)) as nat;
    if wanted < 1 then 1 else wanted
  }

  function HostReserve(cores: nat): nat {
    if cores >= 8 then 2 else 1
  }

  function VmCoreCount(cpu: CpuInfo, cores: nat, vcpuCount: u32): nat {
    Min(if cores < HostReserve(cores) then 0 else cores - HostReserve(cores), CoresWanted(cpu, vcpuCount))
  }

  /** The keys of the core map, in increasing order. */
  ghost predicate CoreIds(cpu: CpuInfo, ids: seq<u32>) {
    StrictlySorted(Leq, ids) && forall k :: k in ids <==> k in cpu.coreToThreads
  }

  ghost predicate Pinned(cpu: CpuInfo, vcpuCount: u32, plan: PinningPlan) {
    var ids := plan.vmCores + plan.hostCores;
    var vm, host := AllThreads(cpu, plan.vmCores), AllThreads(cpu, plan.hostCores);
    && CoreIds(cpu, ids)
    && |plan.vmCores| == VmCoreCount(cpu, |ids|, vcpuCount)
    && plan.vcpuPins == Pins(vm, Min(vcpuCount as nat, |vm|))
    && (host == [] ==> plan.emulatorCpuset == "0-" + Show(if cpu.logicalCores == 0 then 0 else cpu.logicalCores - 1))
    && (host != [] ==> Compressed(ShowAll(host), plan.emulatorCpuset))
  }

  method CalculatePinning(cpu: CpuInfo, vcpuCount: u32) returns (plan: PinningPlan)
    ensures Pinned(cpu, vcpuCount, plan)
  {
    hide Sort, Compressed, Show, AllThreads, Pins, StrictlySorted;
    var threadsPerCore: u32 := if cpu.hasHyperthreading then 2 else 1;
    var wanted := vcpuCount / threadsPerCore;
    var physicalCoresForVm := (if wanted < 1 then 1 else wanted) as nat;
    var allCoreIds := SortedKeys(cpu);
    var n := |allCoreIds|;
    var hostReserve := if n >= 8 then 2 else 1;
    var vmCoreCount := Min(if n < hostReserve then 0 else n - hostReserve, physicalCoresForVm);
    var vmCores, hostCores := allCoreIds[..vmCoreCount], allCoreIds[vmCoreCount..];
    assert vmCores + hostCores == allCoreIds;
    var pins := PinThreads(cpu, vmCores, vcpuCount);
    var hostThreads := GatherThreads(cpu, hostCores);
    var emulator: string;
    if hostThreads == [] {
      emulator := "0-" + Show(if cpu.logicalCores == 0 then 0 else cpu.logicalCores - 1);
    } else {
      emulator := CompressCpuList(ShowAll(hostThreads));
    }
    plan := PinningPlan(pins, emulator, vmCores, hostCores);
  }

  method SortedKeys(cpu: CpuInfo) returns (ids: seq<u32>)
    ensures CoreIds(cpu, ids)
  {
    ids := [];
    var left := cpu.coreToThreads.Keys;
    while left != {}
      invariant left <= cpu.coreToThreads.Keys
      invariant forall k :: k in ids <==> k in cpu.coreToThreads.Keys - left
      invariant forall i, j | 0 <= i < j < |ids| :: ids[i] != ids[j]
      decreases |left|
    {
      var k :| k in left;
      assert k !in ids;
      ids := ids + [k];
      left := left - {k};
    }
    ghost var keys := ids;
    ids := Sort(Leq, ids);
    LeqIsTotalOrder();
    SortIsSorted(Leq, keys);
    SortedDistinct(keys, ids);
  }

  lemma SortedDistinct(s: seq<u32>, t: seq<u32>)
    requires SortedBy(Leq, t) && multiset(t) == multiset(s)
    requires forall i, j | 0 <= i < j < |s| :: s[i] != s[j]
    ensures StrictlySorted(Leq, t) && forall x :: x in t <==> x in s
  {
    hide Leq;
    forall x ensures x in t <==> x in s {
      assert x in multiset(t) <==> x in multiset(s);
    }
    forall i, j | 0 <= i < j < |t| ensures t[i] != t[j] {
      DistinctCountsOnce(s, t[i]);
      CountsTwice(t, i, j);
    }
  }

  lemma CountsTwice(t: seq<u32>, i: nat, j: nat)
    requires i < j < |t|
    ensures t[i] == t[j] ==> multiset(t)[t[i]] >= 2
  {
    assert t == t[..i] + [t[i]] + t[i + 1..j] + [t[j]] + t[j + 1..];
  }

  lemma DistinctCountsOnce(s: seq<u32>, x: u32)
    requires forall i, j | 0 <= i < j < |s| :: s[i] != s[j]
    ensures multiset(s)[x] <= 1
  {
    if s != [] {
      var n := |s| - 1;
      DistinctCountsOnce(s[..n], x);
      assert s == s[..n] + [s[n]];
      if x == s[n] {
        assert x !in s[..n];
      }
    }
  }

  method GatherThreads(cpu: CpuInfo, cores: seq<u32>) returns (threads: seq<u32>)
    ensures threads == AllThreads(cpu, cores)
  {
    threads := [];
    for i := 0 to |cores|
      invariant threads == AllThreads(cpu, cores[..i])
    {
      assert cores[..i + 1][..i] == cores[..i];
      threads := threads + ThreadsOf(cpu, cores[i]);
    }
    assert cores[..|cores|] == cores;
  }

  method PinThreads(cpu: CpuInfo, vmCores: seq<u32>, vcpuCount: u32) returns (pins: seq<(u32, string)>)
    ensures var vm := AllThreads(cpu, vmCores); pins == Pins(vm, Min(vcpuCount as nat, |vm|))
  {
    hide Show;
    pins := [];
    var vcpuIdx: u32 := 0;
    for i := 0 to |vmCores|
      invariant var vm := AllThreads(cpu, vmCores[..i]);
        vcpuIdx as nat == Min(vcpuCount as nat, |vm|) && pins == Pins(vm, vcpuIdx as nat)
    {
      assert vmCores[..i + 1][..i] == vmCores[..i];
      ghost var before := AllThreads(cpu, vmCores[..i]);
      if vmCores[i] in cpu.coreToThreads {
        var threads := cpu.coreToThreads[vmCores[i]];
        assert before + threads[..0] == before;
        for j := 0 to |threads|
          invariant var vm := before + threads[..j];
            vcpuIdx as nat == Min(vcpuCount as nat, |vm|) && pins == Pins(vm, vcpuIdx as nat)
        {
          ghost var vm := before + threads[..j + 1];
          assert vm[..|vm| - 1] == before + threads[..j];
          if vcpuIdx < vcpuCount {
            pins := pins + [(vcpuIdx, Show(threads[j]))];
            vcpuIdx := vcpuIdx + 1;
          }
        }
        assert threads[..|threads|] == threads;
      } else {
        assert before + [] == before;
      }
    }
    assert vmCores[..|vmCores|] == vmCores;
  }

  // ----- what the division guarantees -----

  /** No thread belongs to two cores, or twice to one. */
  ghost predicate ThreadsApart(cpu: CpuInfo) {
    && (forall c, i, j | c in cpu.coreToThreads && 0 <= i < j < |cpu.coreToThreads[c]| ::
          cpu.coreToThreads[c][i] != cpu.coreToThreads[c][j])
    && (forall c, d, t | c in cpu.coreToThreads && d in cpu.coreToThreads
            && t in cpu.coreToThreads[c] && t in cpu.coreToThreads[d] ::
          c == d)
  }

  ghost predicate NoEmptyCore(cpu: CpuInfo) {
    forall c | c in cpu.coreToThreads :: cpu.coreToThreads[c] != []
  }

  lemma ThreadOwner(cpu: CpuInfo, cores: seq<u32>, t: u32)
    ensures t in AllThreads(cpu, cores) <==>
      exists c :: c in cores && c in cpu.coreToThreads && t in cpu.coreToThreads[c]
  {
    if cores != [] {
      var n := |cores| - 1;
      ThreadOwner(cpu, cores[..n], t);
      assert cores == cores[..n] + [cores[n]];
      if exists c :: c in cores[..n] && c in cpu.coreToThreads && t in cpu.coreToThreads[c] {
        var c :| c in cores[..n] && c in cpu.coreToThreads && t in cpu.coreToThreads[c];
        assert c in cores;
      }
      if t in ThreadsOf(cpu, cores[n]) {
        assert cores[n] in cores;
      }
    }
  }

  lemma ThreadsAreDistinct(cpu: CpuInfo, cores: seq<u32>)
    requires ThreadsApart(cpu) && Distinct(cores)
    ensures Distinct(AllThreads(cpu, cores))
  {
    if cores != [] {
      var n := |cores| - 1;
      var before, last := AllThreads(cpu, cores[..n]), ThreadsOf(cpu, cores[n]);
      ThreadsAreDistinct(cpu, cores[..n]);
      forall t | t in before ensures t !in last {
        ThreadOwner(cpu, cores[..n], t);
        var c :| c in cores[..n] && c in cpu.coreToThreads && t in cpu.coreToThreads[c];
        var k :| 0 <= k < n && cores[..n][k] == c;
        assert cores[k] != cores[n];
      }
      DistinctConcat(before, last);
    }
  }

  lemma DistinctConcat(a: seq<u32>, b: seq<u32>)
    requires Distinct(a) && Distinct(b) && forall t | t in a :: t !in b
    ensures Distinct(a + b)
  {
    var ab := a + b;
    forall i, j | 0 <= i < j < |ab| ensures ab[i] != ab[j] {
      if i < |a| <= j {
        assert ab[i] in a && ab[j] in b;
      }
    }
  }

  lemma CoreIdsAreDistinct(cpu: CpuInfo, vm: seq<u32>, host: seq<u32>)
    requires CoreIds(cpu, vm + host)
    ensures Distinct(vm) && Distinct(host) && forall c | c in vm :: c !in host
  {
    var ids := vm + host;
    assert forall i | 0 <= i < |vm| :: ids[i] == vm[i];
    assert forall i | 0 <= i < |host| :: ids[|vm| + i] == host[i];
    forall c | c in vm ensures c !in host {
      var i :| 0 <= i < |vm| && vm[i] == c;
      assert forall j | 0 <= j < |host| :: host[j] == ids[|vm| + j] && host[j] != c;
    }
  }

  /** Whole cores go to one side or the other: no thread is on both. */
  lemma SidesApart(cpu: CpuInfo, vm: seq<u32>, host: seq<u32>)
    requires ThreadsApart(cpu) && CoreIds(cpu, vm + host)
    ensures Distinct(AllThreads(cpu, vm))
    ensures forall t | t in AllThreads(cpu, vm) :: t !in AllThreads(cpu, host)
  {
    CoreIdsAreDistinct(cpu, vm, host);
    ThreadsAreDistinct(cpu, vm);
    forall t | t in AllThreads(cpu, vm) ensures t !in AllThreads(cpu, host) {
      ThreadOwner(cpu, vm, t);
      ThreadOwner(cpu, host, t);
      var c :| c in vm && c in cpu.coreToThreads && t in cpu.coreToThreads[c];
      assert forall d | d in host && d in cpu.coreToThreads :: t !in cpu.coreToThreads[d];
    }
  }

  lemma NumbersOfShown(ids: seq<u32>)
    ensures Numbers(ShowAll(ids)) == ids
  {
    hide Show, ParseU32;
    if ids != [] {
      var n := |ids| - 1;
      assert ShowAll(ids)[..n] == ShowAll(ids[..n]);
      NumbersOfShown(ids[..n]);
      ParseShow(ids[n]);
    }
  }

  /** The host's share is never empty, and two cores on a machine of eight or more. */
  lemma HostKeepsCores(cpu: CpuInfo, vcpuCount: u32, plan: PinningPlan)
    requires Pinned(cpu, vcpuCount, plan)
    ensures cpu.coreToThreads != map[] ==> |plan.hostCores| >= 1
    ensures |plan.vmCores + plan.hostCores| >= 8 ==> |plan.hostCores| >= 2
  {
    if cpu.coreToThreads != map[] {
      var c :| c in cpu.coreToThreads;
      assert c in plan.vmCores + plan.hostCores;
    }
  }

  /** The emulator's set, read back, is exactly the threads of the host's cores. */
  lemma EmulatorSetIsHost(cpu: CpuInfo, vcpuCount: u32, plan: PinningPlan, t: u32)
    requires Pinned(cpu, vcpuCount, plan) && AllThreads(cpu, plan.hostCores) != []
    ensures t in PartsIds(Parts(plan.emulatorCpuset)) <==> t in AllThreads(cpu, plan.hostCores)
  {
    hide AllThreads, Show, PartsIds, Parts, CoreIds;
    var host := AllThreads(cpu, plan.hostCores);
    CpuListRoundTrip(ShowAll(host), plan.emulatorCpuset);
    NumbersOfShown(host);
  }

  /**
   * vCPUs are numbered from 0, each on a thread of its own, and no such thread is in the set the
   * emulator and the host run on.
   */
  lemma PinsAreApart(cpu: CpuInfo, vcpuCount: u32, plan: PinningPlan, i: nat)
    requires ThreadsApart(cpu) && NoEmptyCore(cpu) && Pinned(cpu, vcpuCount, plan) && i < |plan.vcpuPins|
    ensures plan.vcpuPins[i].0 as int == i
    ensures forall j | 0 <= j < i :: plan.vcpuPins[j].1 != plan.vcpuPins[i].1
    ensures ParseU32(plan.vcpuPins[i].1).Some?
    ensures ParseU32(plan.vcpuPins[i].1).value !in PartsIds(Parts(plan.emulatorCpuset))
  {
    hide Show, ParseU32, PartsIds, Parts, CoreIds;
    var vm := AllThreads(cpu, plan.vmCores);
    SidesApart(cpu, plan.vmCores, plan.hostCores);
    forall j | 0 <= j < i ensures plan.vcpuPins[j].1 != plan.vcpuPins[i].1 {
      ParseShow(vm[j]);
      ParseShow(vm[i]);
    }
    ParseShow(vm[i]);
    HostHasThreads(cpu, vcpuCount, plan, vm[i]);
    EmulatorSetIsHost(cpu, vcpuCount, plan, vm[i]);
  }

  lemma HostHasThreads(cpu: CpuInfo, vcpuCount: u32, plan: PinningPlan, t: u32)
    requires NoEmptyCore(cpu) && Pinned(cpu, vcpuCount, plan) && t in AllThreads(cpu, plan.vmCores)
    ensures AllThreads(cpu, plan.hostCores) != []
  {
    ThreadOwner(cpu, plan.vmCores, t);
    HostKeepsCores(cpu, vcpuCount, plan);
    var c := plan.hostCores[0];
    assert (plan.vmCores + plan.hostCores)[|plan.vmCores|] == c;
    ThreadOwner(cpu, plan.hostCores, cpu.coreToThreads[c][0]);
  }

  // ----- how many vCPUs get a thread -----

  /** Every core has as many threads as hyperthreading suggests. */
  ghost predicate Uniform(cpu: CpuInfo) {
    forall c | c in cpu.coreToThreads :: |cpu.coreToThreads[c]| == ThreadsPerCore(cpu) as int
  }

  lemma UniformCount(cpu: CpuInfo, cores: seq<u32>)
    requires Uniform(cpu) && forall c | c in cores :: c in cpu.coreToThreads
    ensures |AllThreads(cpu, cores)| == ThreadsPerCore(cpu) as int * |cores|
  {
    if cores != [] {
      var n := |cores| - 1;
      assert cores[n] in cores && forall c | c in cores[..n] :: c in cores;
      UniformCount(cpu, cores[..n]);
    }
  }

  /** The request is met in full when it is a positive multiple of a core's threads and enough cores remain. */
  lemma AllVcpusPinned(cpu: CpuInfo, vcpuCount: u32, plan: PinningPlan, wanted: nat)
    requires Pinned(cpu, vcpuCount, plan) && Uniform(cpu)
    requires wanted > 0 && vcpuCount as int == wanted * ThreadsPerCore(cpu) as int
    requires wanted + HostReserve(|plan.vmCores + plan.hostCores|) <= |plan.vmCores + plan.hostCores|
    ensures |plan.vcpuPins| == vcpuCount as int
  {
    hide Pins, AllThreads, Uniform, StrictlySorted, Compressed, CoresWanted;
    forall c | c in plan.vmCores ensures c in cpu.coreToThreads {
      assert c in plan.vmCores + plan.hostCores;
    }
    UniformCount(cpu, plan.vmCores);
    WantedCores(cpu, vcpuCount, wanted);
    PinsLength(AllThreads(cpu, plan.vmCores), vcpuCount as nat);
  }

  lemma WantedCores(cpu: CpuInfo, vcpuCount: u32, wanted: nat)
    requires wanted > 0 && vcpuCount as int == wanted * ThreadsPerCore(cpu) as int
    ensures CoresWanted(cpu, vcpuCount) == wanted
  {
  }

  lemma PinsLength(threads: seq<u32>, count: nat)
    requires count == |threads| < TWO_TO_THE_32
    ensures |Pins(threads, Min(count, |threads|))| == count
  {
  }

  /**
   * The VM's share of the cores, exactly: none beyond the vCPUs asked for except the first, none at
   * all only when the host needs the single core there is, and as many as asked for until the host
   * is down to its reserve of one core, or two on a machine of eight or more.
   */
  lemma VmShare(cpu: CpuInfo, vcpuCount: u32, plan: PinningPlan)
    requires Pinned(cpu, vcpuCount, plan)
    ensures var t, vm, host := if cpu.hasHyperthreading then 2 else 1, |plan.vmCores|, |plan.hostCores|;
      && (vm >= 2 ==> vm * t <= vcpuCount as int)
      && (vm == 0 <==> vm + host <= 1)
      && (vm + host >= 1 ==> host >= if vm + host >= 8 then 2 else 1)
      && (vm + host >= 1 && (vm + 1) * t <= vcpuCount as int ==> host == if vm + host >= 8 then 2 else 1)
  {
    hide Pins, AllThreads, CoreIds, Compressed, Show, VmCoreCount, CoresWanted;
    var n := |plan.vmCores + plan.hostCores|;
    ShareOf(cpu, n, vcpuCount);
  }

  lemma ShareOf(cpu: CpuInfo, cores: nat, vcpuCount: u32)
    ensures var t, vm := if cpu.hasHyperthreading then 2 else 1, VmCoreCount(cpu, cores, vcpuCount);
      var reserve := if cores >= 8 then 2 else 1;
      && vm <= cores
      && (vm >= 2 ==> vm * t <= vcpuCount as int)
      && (vm == 0 <==> cores <= 1)
      && (cores >= 1 ==> cores - vm >= reserve)
      && (cores >= 1 && (vm + 1) * t <= vcpuCount as int ==> cores - vm == reserve)
  {
  }

  // ----- which threads the vCPUs get -----

  lemma ThreadAt(cpu: CpuInfo, cores: seq<u32>, k: nat, j: nat)
    requires k < |cores| && j < |ThreadsOf(cpu, cores[k])|
    ensures var at := |AllThreads(cpu, cores[..k])| + j;
      at < |AllThreads(cpu, cores)| && AllThreads(cpu, cores)[at] == ThreadsOf(cpu, cores[k])[j]
  {
    hide ThreadsOf, AllThreads;
    var n := |cores| - 1;
    var front, last := cores[..n], cores[n];
    ThreadsSnoc(cpu, cores);
    if k < n {
      assert front[..k] == cores[..k] && front[k] == cores[k];
      ThreadAt(cpu, front, k, j);
    } else {
      assert cores[..k] == front;
    }
  }

  lemma ThreadsSnoc(cpu: CpuInfo, cores: seq<u32>)
    requires cores != []
    ensures var n := |cores| - 1; AllThreads(cpu, cores) == AllThreads(cpu, cores[..n]) + ThreadsOf(cpu, cores[n])
  {
  }

  /**
   * The vCPUs run through the threads of the VM's cores, core by core: the `j`-th thread of the
   * `k`-th core gets the vCPU numbered by the threads before it, unless all vCPUs have one by then,
   * and no vCPU goes without while there is a thread left.
   */
  lemma PinsFollowCores(cpu: CpuInfo, vcpuCount: u32, plan: PinningPlan, k: nat, j: nat)
    requires Pinned(cpu, vcpuCount, plan)
    requires k < |plan.vmCores| && plan.vmCores[k] in cpu.coreToThreads
    requires j < |cpu.coreToThreads[plan.vmCores[k]]|
    ensures var at := |AllThreads(cpu, plan.vmCores[..k])| + j;
      if at < vcpuCount as int then
        at < |plan.vcpuPins| && plan.vcpuPins[at] == (at as u32, Show(cpu.coreToThreads[plan.vmCores[k]][j]))
      else
        |plan.vcpuPins| == vcpuCount as int
  {
    hide AllThreads, CoreIds, Compressed, Show, VmCoreCount;
    ThreadAt(cpu, plan.vmCores, k, j);
  }

  /** With cores alike, vCPU `i` runs on thread `i % t` of core `i / t` of the VM's. */
  lemma UniformPins(cpu: CpuInfo, vcpuCount: u32, plan: PinningPlan, i: nat)
    requires Pinned(cpu, vcpuCount, plan) && Uniform(cpu)
    ensures var t := if cpu.hasHyperthreading then 2 else 1;
      && |plan.vcpuPins| == Min(vcpuCount as int, |plan.vmCores| * t)
      && (i < |plan.vcpuPins| ==>
          && i / t < |plan.vmCores| && plan.vmCores[i / t] in cpu.coreToThreads
          && |cpu.coreToThreads[plan.vmCores[i / t]]| == t
          && plan.vcpuPins[i] == (i as u32, Show(cpu.coreToThreads[plan.vmCores[i / t]][i % t])))
  {
    hide AllThreads, Pins, Compressed, Show, VmCoreCount, StrictlySorted;
    var t := if cpu.hasHyperthreading then 2 else 1;
    AllInMap(cpu, plan);
    UniformCount(cpu, plan.vmCores);
    PinsCount(AllThreads(cpu, plan.vmCores), vcpuCount);
    if i < |plan.vcpuPins| {
      var k, j := i / t, i % t;
      assert plan.vmCores[k] in cpu.coreToThreads;
      UniformCount(cpu, plan.vmCores[..k]);
      PinsFollowCores(cpu, vcpuCount, plan, k, j);
    }
  }

  lemma AllInMap(cpu: CpuInfo, plan: PinningPlan)
    requires CoreIds(cpu, plan.vmCores + plan.hostCores)
    ensures forall c | c in plan.vmCores :: c in cpu.coreToThreads
  {
    forall c | c in plan.vmCores ensures c in cpu.coreToThreads {
      assert c in plan.vmCores + plan.hostCores;
    }
  }

  lemma PinsCount(threads: seq<u32>, vcpuCount: u32)
    ensures |Pins(threads, Min(vcpuCount as nat, |threads|))| == Min(vcpuCount as nat, |threads|)
  {
  }

  /** Where no core is empty and there are two or more, a vCPU asked for is a vCPU pinned. */
  lemma FirstVcpuPinned(cpu: CpuInfo, vcpuCount: u32, plan: PinningPlan)
    requires NoEmptyCore(cpu) && Pinned(cpu, vcpuCount, plan)
    requires vcpuCount >= 1 && |plan.vmCores + plan.hostCores| >= 2
    ensures |plan.vcpuPins| >= 1
  {
    hide AllThreads, Compressed, Show, Pins, VmCoreCount, StrictlySorted;
    VmShare(cpu, vcpuCount, plan);
    AllInMap(cpu, plan);
    assert plan.vmCores[0] in cpu.coreToThreads;
    NothingBefore(cpu, plan.vmCores);
    PinsFollowCores(cpu, vcpuCount, plan, 0, 0);
  }

  lemma NothingBefore(cpu: CpuInfo, cores: seq<u32>)
    ensures AllThreads(cpu, cores[..0]) == []
  {
  }

  /** Without a thread on the host's side, the emulator may use every logical processor. */
  lemma EmulatorFallback(cpu: CpuInfo, vcpuCount: u32, plan: PinningPlan, t: u32)
    requires Pinned(cpu, vcpuCount, plan) && forall c | c in plan.hostCores :: ThreadsOf(cpu, c) == []
    ensures t in PartsIds(Parts(plan.emulatorCpuset)) <==> t == 0 || t < cpu.logicalCores
  {
    hide AllThreads, PartsIds, Parts, Pins, CoreIds, Compressed, VmCoreCount, ThreadsOf, Show;
    NoThreads(cpu, plan.hostCores);
    RangeReadsBack(if cpu.logicalCores == 0 then 0 else cpu.logicalCores - 1, t);
  }

  lemma NoThreads(cpu: CpuInfo, cores: seq<u32>)
    requires forall c | c in cores :: ThreadsOf(cpu, c) == []
    ensures AllThreads(cpu, cores) == []
  {
  }

  /** A machine with a single core keeps it for the host. */
  lemma SingleCoreMachine(cpu: CpuInfo, vcpuCount: u32, plan: PinningPlan)
    requires Pinned(cpu, vcpuCount, plan) && |plan.vmCores + plan.hostCores| <= 1
    ensures plan.vcpuPins == []
  {
    hide Compressed, Show, VmCoreCount, CoreIds;
    VmShare(cpu, vcpuCount, plan);
  }
}
