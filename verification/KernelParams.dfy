/** The PCI ids and kernel parameters that planner, executor and verifier each work out for themselves. */
module KernelParams {
  import opened Wrappers
  import opened Records
  import opened Text
  import opened LineView
  import opened Sorting
  import opened GpuRoles

  const IDS_PREFIX := "vfio-pci.ids="
  const IOMMU_PT := "iommu=pt"

  // ----- PCI ids -----

  function GpuId(gpu: GpuInfo): string {
    gpu.vendorId + ":" + gpu.deviceId
  }

  /** The id of a GPU and, if it has one, of its audio function. */
  function IdsOf(gpu: GpuInfo): seq<string> {
    [GpuId(gpu)] + (match gpu.companionAudio case None => [] case Some(a) => [a.vendorId + ":" + a.deviceId])
  }

  /** Ids of the passthrough GPUs that are detected, in role order, without repetition. */
  function PciIds(roles: seq<GpuRoleAssignment>, gpus: seq<GpuInfo>): seq<string> {
    if roles == [] then []
    else
      var before, last := PciIds(roles[..|roles| - 1], gpus), roles[|roles| - 1];
      if last.role != Passthrough then before
      else
        match FindGpu(gpus, last.pciSlot)
        case None => before
        case Some(gpu) => AddMissing(before, IdsOf(gpu))
  }

  /** The sorted list everything downstream uses. */
  function CanonicalIds(roles: seq<GpuRoleAssignment>, gpus: seq<GpuInfo>): seq<string> {
    SortDedup(StringLeq, PciIds(roles, gpus))
  }

  /** The executor's list: unsorted, in role order. */
  method ExecutorPciIds(host: SystemProfile, config: PassthroughConfig) returns (ids: seq<string>)
    ensures ids == PciIds(config.gpuRoles, host.gpus)
  {
    ids := [];
    var roles := config.gpuRoles;
    for i := 0 to |roles|
      invariant ids == PciIds(roles[..i], host.gpus)
    {
      assert roles[..i + 1][..i] == roles[..i];
      if roles[i].role != Passthrough {
        continue;
      }
      var gpu := FindGpu(host.gpus, roles[i].pciSlot);
      if gpu.Some? {
        ids := PushIds(ids, gpu.value);
      }
    }
    assert roles[..|roles|] == roles;
  }

  method PushIds(ids: seq<string>, gpu: GpuInfo) returns (more: seq<string>)
    ensures more == AddMissing(ids, IdsOf(gpu))
  {
    more := ids;
    var id := gpu.vendorId + ":" + gpu.deviceId;
    if id !in more {
      more := more + [id];
    }
    AddMissingTwice(ids, [id], IdsOf(gpu)[1..]);
    assert [id] + IdsOf(gpu)[1..] == IdsOf(gpu);
    if gpu.companionAudio.Some? {
      var aid := gpu.companionAudio.value.vendorId + ":" + gpu.companionAudio.value.deviceId;
      if aid !in more {
        more := more + [aid];
      }
    }
  }

  /** The planner's list, sorted and deduplicated at once. */
  method PlannerPciIds(profile: SystemProfile, config: PassthroughConfig) returns (ids: seq<string>)
    ensures ids == CanonicalIds(config.gpuRoles, profile.gpus)
  {
    ids := [];
    var roles := config.gpuRoles;
    for i := 0 to |roles|
      invariant ids == PciIds(roles[..i], profile.gpus)
    {
      assert roles[..i + 1][..i] == roles[..i];
      if roles[i].role != Passthrough {
        continue;
      }
      var gpu := FindGpu(profile.gpus, roles[i].pciSlot);
      if gpu.None? {
        continue;
      }
      ids := PushIds(ids, gpu.value);
    }
    assert roles[..|roles|] == roles;
    ids := Dedup(Sort(StringLeq, ids));
  }

  /** Ids are distinct, and each belongs to a detected passthrough GPU or its audio function. */
  lemma PciIdsMembers(roles: seq<GpuRoleAssignment>, gpus: seq<GpuInfo>, id: string)
    ensures id in PciIds(roles, gpus) <==>
      exists r, g :: r in roles && r.role == Passthrough && FindGpu(gpus, r.pciSlot) == Some(g) && id in IdsOf(g)
  {
    if roles != [] {
      var n := |roles| - 1;
      var front, last := roles[..n], roles[n];
      PciIdsMembers(front, gpus, id);
      assert roles == front + [last];
      var g := FindGpu(gpus, last.pciSlot);
      if last.role == Passthrough && g.Some? {
        AddMissingMembers(PciIds(front, gpus), IdsOf(g.value));
        if id in IdsOf(g.value) {
          assert last in roles && FindGpu(gpus, last.pciSlot) == Some(g.value);
        }
      }
      if id in PciIds(front, gpus) {
        var r, h :| r in front && r.role == Passthrough && FindGpu(gpus, r.pciSlot) == Some(h) && id in IdsOf(h);
        assert r in roles;
      }
    }
  }

  /** The id of a detected GPU that a passthrough role names, or of the audio function beside it. */
  ghost predicate PassesThrough(roles: seq<GpuRoleAssignment>, gpus: seq<GpuInfo>, id: string) {
    exists i, k ::
      && 0 <= i < |roles| && roles[i].role == Passthrough && FoundAt(gpus, roles[i].pciSlot, k)
      && HasId(gpus[k], id)
  }

  predicate HasId(gpu: GpuInfo, id: string) {
    || id == gpu.vendorId + ":" + gpu.deviceId
    || (gpu.companionAudio.Some? && id == gpu.companionAudio.value.vendorId + ":" + gpu.companionAudio.value.deviceId)
  }

  /** The list everything downstream uses is exactly these ids, in increasing order. */
  lemma PassthroughIdsAre(roles: seq<GpuRoleAssignment>, gpus: seq<GpuInfo>)
    ensures StrictlySorted(StringLeq, CanonicalIds(roles, gpus))
    ensures forall id :: id in CanonicalIds(roles, gpus) <==> PassesThrough(roles, gpus, id)
  {
    hide CanonicalIds, PciIds, FindGpu;
    CanonicalIdsCorrect(roles, gpus);
    forall id ensures id in CanonicalIds(roles, gpus) <==> PassesThrough(roles, gpus, id) {
      PciIdsMembers(roles, gpus, id);
      if id in PciIds(roles, gpus) {
        var r, g :| r in roles && r.role == Passthrough && FindGpu(gpus, r.pciSlot) == Some(g) && id in IdsOf(g);
        FindGpuIff(gpus, r.pciSlot, g);
        var i :| 0 <= i < |roles| && roles[i] == r;
        var k :| FoundAt(gpus, roles[i].pciSlot, k) && gpus[k] == g;
        assert HasId(gpus[k], id);
      }
      if PassesThrough(roles, gpus, id) {
        var i, k :| 0 <= i < |roles| && roles[i].role == Passthrough && FoundAt(gpus, roles[i].pciSlot, k)
          && HasId(gpus[k], id);
        FindGpuIff(gpus, roles[i].pciSlot, gpus[k]);
        assert roles[i] in roles;
      }
    }
  }

  /** The canonical list is strictly increasing and holds exactly the ids of the passthrough devices. */
  lemma CanonicalIdsCorrect(roles: seq<GpuRoleAssignment>, gpus: seq<GpuInfo>)
    ensures StrictlySorted(StringLeq, CanonicalIds(roles, gpus))
    ensures forall id :: id in CanonicalIds(roles, gpus) <==> id in PciIds(roles, gpus)
  {
    StringLeqIsTotalOrder();
    SortDedupCorrect(StringLeq, PciIds(roles, gpus));
  }

  // ----- required parameters -----

  function ToLower(c: char): char {
    if 'A' <= c <= 'Z' then c - 'A' + 'a' else c
  }

  function LowerText(s: string): string {
    if s == "" then "" else [ToLower(s[0])] + LowerText(s[1..])
  }

  function CpuParam(vendor: string): string {
    if Contains(LowerText(vendor), "amd") then "amd_iommu=on" else "intel_iommu=on"
  }

  function IdsParam(ids: seq<string>): string {
    IDS_PREFIX + Join(ids, ",")
  }

  /** Somewhere in the vendor's name stand the letters a, m and d, each in either case. */
  ghost predicate NamesAmd(vendor: string) {
    exists i :: 0 <= i <= |vendor| - 3
      && vendor[i] in ['a', 'A'] && vendor[i + 1] in ['m', 'M'] && vendor[i + 2] in ['d', 'D']
  }

  lemma LowerAt(s: string)
    ensures |LowerText(s)| == |s| && forall i | 0 <= i < |s| :: LowerText(s)[i] == ToLower(s[i])
  {
  }

  /** The processor parameter goes by the vendor's name. */
  lemma CpuParamByVendor(vendor: string)
    ensures CpuParam(vendor) == if NamesAmd(vendor) then "amd_iommu=on" else "intel_iommu=on"
  {
    hide LowerText, OccursAt;
    var low := LowerText(vendor);
    LowerAt(vendor);
    if Contains(low, "amd") {
      var i :| 0 <= i <= |low| && OccursAt(low, "amd", i);
      AmdAt(vendor, i);
    }
    if NamesAmd(vendor) {
      var i :| 0 <= i <= |vendor| - 3
        && vendor[i] in ['a', 'A'] && vendor[i + 1] in ['m', 'M'] && vendor[i + 2] in ['d', 'D'];
      AmdAt(vendor, i);
    }
  }

  lemma AmdAt(vendor: string, i: nat)
    requires i <= |vendor|
    ensures OccursAt(LowerText(vendor), "amd", i) <==>
      i <= |vendor| - 3
      && vendor[i] in ['a', 'A'] && vendor[i + 1] in ['m', 'M'] && vendor[i + 2] in ['d', 'D']
  {
    hide LowerText, ToLower;
    var low := LowerText(vendor);
    LowerAt(vendor);
    if i <= |vendor| - 3 {
      LowerCases(vendor[i]);
      LowerCases(vendor[i + 1]);
      LowerCases(vendor[i + 2]);
      assert low[i..i + 3] == [low[i], low[i + 1], low[i + 2]];
      assert "amd" == ['a', 'm', 'd'];
    }
  }

  lemma LowerCases(c: char)
    ensures ToLower(c) == 'a' <==> c in ['a', 'A']
    ensures ToLower(c) == 'm' <==> c in ['m', 'M']
    ensures ToLower(c) == 'd' <==> c in ['d', 'D']
  {
  }

  /** The id parameter names the ids: up to the equals sign the option, and after it, between commas, the ids. */
  lemma IdsParamReadBack(ids: seq<string>, key: string)
    requires ids != [] && AllVendorDeviceIds(ids) && key == "vfio-pci.ids"
    ensures var p := IdsParam(ids); var eq := Find(p, '=');
      eq < |p| && p[..eq] == key && Split(p[eq + 1..], ',') == ids
  {
    hide Find, Join, Split;
    var list := Join(ids, ",");
    KeyHasNoEquals(key);
    assert IDS_PREFIX + list == key + "=" + list by {
      assert IDS_PREFIX == key + "=";
    }
    SplitAtEquals(key, list);
    forall i | 0 <= i < |ids| ensures ',' !in ids[i] {
      assert forall k | 0 <= k < |ids[i]| :: ids[i][k] != ',';
    }
    SplitJoin(ids, ',');
  }

  lemma KeyHasNoEquals(key: string)
    requires key == "vfio-pci.ids"
    ensures '=' !in key
  {
  }

  /** The executor's parameters. */
  method RequiredKernelParams(host: SystemProfile, config: PassthroughConfig) returns (params: seq<string>)
    ensures params == RequiredCmdlineParams(CpuParam(host.cpuVendor), CanonicalIds(config.gpuRoles, host.gpus))
  {
    params := [CpuParam(host.cpuVendor), IOMMU_PT];
    var pciIds := ExecutorPciIds(host, config);
    pciIds := Dedup(Sort(StringLeq, pciIds));
    if pciIds != [] {
      params := params + [IDS_PREFIX + Join(pciIds, ",")];
    }
  }

  /** The verifier's parameters. */
  function RequiredCmdlineParams(cpuParam: string, pciIds: seq<string>): seq<string> {
    [cpuParam, IOMMU_PT] + (if pciIds == [] then [] else [IdsParam(pciIds)])
  }

  /** The verifier accepts a whole word, or for the id list any occurrence. */
  predicate CmdlineHasParam(cmdline: string, param: string) {
    if IDS_PREFIX <= param then Contains(cmdline, param) else param in Tokens(cmdline)
  }

  /** The planner's test for a boot line that needs no edit. */
  predicate CmdlineSatisfied(cmdline: string, cpuParam: string, ids: seq<string>) {
    && cpuParam in Tokens(cmdline) && IOMMU_PT in Tokens(cmdline)
    && (ids == [] || Contains(cmdline, IdsParam(ids)))
  }

  lemma CpuParamIsPlain(vendor: string)
    ensures !(IDS_PREFIX <= CpuParam(vendor)) && !(IDS_PREFIX <= IOMMU_PT)
  {
    assert CpuParam(vendor)[0] != IDS_PREFIX[0];
    assert IOMMU_PT[0] != IDS_PREFIX[0];
  }

  /** The planner calls the boot line satisfied exactly when the verifier misses no parameter on it. */
  lemma PlannerAgreesWithVerifier(cmdline: string, vendor: string, ids: seq<string>)
    ensures CmdlineSatisfied(cmdline, CpuParam(vendor), ids) <==>
      forall p | p in RequiredCmdlineParams(CpuParam(vendor), ids) :: CmdlineHasParam(cmdline, p)
  {
    CpuParamIsPlain(vendor);
    var cpu := CpuParam(vendor);
    var params := RequiredCmdlineParams(cpu, ids);
    assert forall p :: p in params <==> p == cpu || p == IOMMU_PT || (ids != [] && p == IdsParam(ids));
    assert cpu in params && IOMMU_PT in params && (ids != [] ==> IdsParam(ids) in params);
    IdsParamHasPrefix(ids);
  }

  lemma IdsParamHasPrefix(ids: seq<string>)
    ensures IDS_PREFIX <= IdsParam(ids)
  {
  }

  /** A parameter that is a word of the boot line is found by the verifier. */
  lemma WordIsFound(cmdline: string, param: string)
    requires param in Tokens(cmdline)
    ensures CmdlineHasParam(cmdline, param)
  {
    TokenIsContained(cmdline, param);
  }

  lemma InSlice(s: string, part: string, i: nat, n: nat)
    requires i + |part| <= |s| && s[i..i + |part|] == part
    ensures i <= n < i + |part| ==> s[n] in part
  {
    assert forall m | 0 <= m < |part| :: part[m] == s[i + m];
    assert i <= n < i + |part| ==> part[n - i] == s[n];
  }

  lemma SliceOfSlice(s: string, i: nat, j: nat, m: nat, n: nat)
    requires i <= j <= |s| && m <= n <= j - i
    ensures s[i..j][m..n] == s[i + m..i + n]
  {
    assert forall k | 0 <= k < n - m :: s[i..j][m..n][k] == s[i + m..i + n][k];
  }

  /** Text without blanks that occurs in joined words occurs in one of them. */
  lemma FoundInOneWord(words: seq<string>, part: string, i: nat) returns (k: nat)
    requires part != "" && ' ' !in part && OccursAt(Join(words, " "), part, i)
    ensures k < |words| && Contains(words[k], part)
  {
    var s := Join(words, " ");
    if |words| == 1 {
      k := 0;
      assert OccursAt(words[0], part, i);
    } else {
      var n, rest := |words[0]|, Join(words[1..], " ");
      assert s == words[0] + " " + rest && s[n] == ' ';
      assert s[i..i + |part|] == part;
      InSlice(s, part, i, n);
      if i + |part| <= n {
        k := 0;
        assert words[0][i..i + |part|] == part;
        assert OccursAt(words[0], part, i);
      } else {
        assert rest[i - n - 1..i - n - 1 + |part|] == part;
        var j := FoundInOneWord(words[1..], part, i - n - 1);
        k := j + 1;
      }
    }
  }

  lemma ContainsWithin(s: string, t: string, part: string)
    requires Contains(s, t) && Contains(t, part)
    ensures Contains(s, part)
  {
    var i :| 0 <= i <= |s| && OccursAt(s, t, i);
    var j :| 0 <= j <= |t| && OccursAt(t, part, j);
    SliceOfSlice(s, i, i + |t|, j, j + |part|);
    assert OccursAt(s, part, i + j);
  }

  /** What the verifier finds in some words it finds in every boot line that has them. */
  lemma FoundInMore(words: seq<string>, cmdline: string, param: string)
    requires Words(words) && Word(param) && (forall w | w in words :: w in Tokens(cmdline))
    requires CmdlineHasParam(Join(words, " "), param)
    ensures CmdlineHasParam(cmdline, param)
  {
    hide Tokens, Join, IsSpace, OccursAt;
    if IDS_PREFIX <= param {
      var s := Join(words, " ");
      var i :| 0 <= i <= |s| && OccursAt(s, param, i);
      NoBlank(param);
      var k := FoundInOneWord(words, param, i);
      assert words[k] in words;
      TokenIsContained(cmdline, words[k]);
      ContainsWithin(cmdline, words[k], param);
    } else {
      TokensOfJoin(words);
    }
  }

  lemma NoBlank(s: string)
    requires Word(s)
    ensures s != "" && ' ' !in s
  {
    assert IsSpace(' ');
  }

  // ----- the parameters are fit to be written -----

  predicate IsHex(c: char) {
    '0' <= c <= '9' || 'a' <= c <= 'f' || 'A' <= c <= 'F'
  }

  /** `vendor:device`, four hex digits each. */
  predicate IsVendorDeviceId(id: string) {
    |id| == 9 && id[4] == ':' && forall i | 0 <= i < 9 && i != 4 :: IsHex(id[i])
  }

  /** Four hex digits, a colon, and four more. */
  lemma VendorDeviceIdIs(id: string)
    ensures IsVendorDeviceId(id) <==>
      exists vendor, device ::
        && id == vendor + ":" + device && |vendor| == 4 && |device| == 4
        && forall c | c in vendor + device :: c in "0123456789abcdefABCDEF"
  {
    hide IsHex;
    forall c ensures IsHex(c) <==> c in "0123456789abcdefABCDEF" {
      HexIs(c, "0123456789abcdefABCDEF");
    }
    if IsVendorDeviceId(id) {
      var vendor, device := id[..4], id[5..];
      assert id == vendor + ":" + device;
      assert forall c | c in vendor + device :: IsHex(c);
    }
    if exists vendor, device ::
        && id == vendor + ":" + device && |vendor| == 4 && |device| == 4
        && forall c | c in vendor + device :: c in "0123456789abcdefABCDEF" {
      var vendor, device :|
        && id == vendor + ":" + device && |vendor| == 4 && |device| == 4
        && forall c | c in vendor + device :: c in "0123456789abcdefABCDEF";
      HexParts(id, vendor, device);
    }
  }

  lemma HexIs(c: char, digits: string)
    requires digits == "0123456789abcdefABCDEF"
    ensures IsHex(c) <==> c in digits
  {
    assert digits == "0123456789" + "abcdef" + "ABCDEF";
    assert c in digits <==> c in "0123456789" || c in "abcdef" || c in "ABCDEF";
  }

  lemma HexParts(id: string, vendor: string, device: string)
    requires id == vendor + ":" + device && |vendor| == 4 && |device| == 4
    requires forall c | c in vendor + device :: IsHex(c)
    ensures IsVendorDeviceId(id)
  {
    hide IsHex;
    var both := vendor + device;
    assert forall i | 0 <= i < 8 :: both[i] in both;
    forall i | 0 <= i < 9 && i != 4 ensures IsHex(id[i]) {
      assert id[i] == both[if i < 4 then i else i - 1];
    }
  }

  predicate AllVendorDeviceIds(ids: seq<string>) {
    forall i | 0 <= i < |ids| :: IsVendorDeviceId(ids[i])
  }

  predicate PlainChar(c: char) {
    !IsSpace(c) && !IsQuote(c)
  }

  predicate PlainText(s: string) {
    forall k | 0 <= k < |s| :: PlainChar(s[k])
  }

  lemma PlainJoin(ids: seq<string>)
    requires AllVendorDeviceIds(ids)
    ensures PlainText(Join(ids, ","))
  {
    if ids != [] {
      var id := ids[0];
      assert forall k | 0 <= k < |id| :: PlainChar(id[k]);
      PlainJoin(ids[1..]);
    }
  }

  lemma PlainConcat(a: string, b: string)
    requires PlainText(a) && PlainText(b)
    ensures PlainText(a + b)
  {
  }

  lemma PlainIsClean(s: string)
    requires s != "" && PlainText(s)
    ensures CleanParam(s)
  {
    assert forall k | 0 <= k < |s| :: PlainChar(s[k]);
  }

  lemma PlainPrefix()
    ensures PlainText(IDS_PREFIX)
  {
  }

  lemma PlainCpuParams()
    ensures PlainText("amd_iommu=on") && PlainText("intel_iommu=on")
  {
  }

  lemma PlainIommu()
    ensures PlainText(IOMMU_PT)
  {
  }

  lemma PlainConstants(vendor: string)
    ensures PlainText(IDS_PREFIX) && PlainText(IOMMU_PT) && PlainText(CpuParam(vendor)) && CpuParam(vendor) != ""
  {
    hide PlainText;
    PlainPrefix();
    PlainIommu();
    PlainCpuParams();
  }

  lemma IdsParamIsClean(ids: seq<string>)
    requires AllVendorDeviceIds(ids)
    ensures CleanParam(IdsParam(ids))
  {
    PlainConstants("");
    PlainJoin(ids);
    PlainConcat(IDS_PREFIX, Join(ids, ","));
    PlainIsClean(IdsParam(ids));
  }

  /** For hexadecimal ids every required parameter survives being written and parsed back. */
  lemma RequiredParamsAreClean(vendor: string, ids: seq<string>)
    requires AllVendorDeviceIds(ids)
    ensures CleanDialect(Dialect.Grub(RequiredCmdlineParams(CpuParam(vendor), ids)))
  {
    PlainConstants(vendor);
    var cpu := CpuParam(vendor);
    PlainIsClean(cpu);
    PlainIsClean(IOMMU_PT);
    IdsParamIsClean(ids);
    CleanThree(cpu, ids);
  }

  lemma CleanThree(cpu: string, ids: seq<string>)
    requires CleanParam(cpu) && CleanParam(IOMMU_PT) && CleanParam(IdsParam(ids))
    ensures CleanDialect(Dialect.Grub(RequiredCmdlineParams(cpu, ids)))
  {
  }
}
