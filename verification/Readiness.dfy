/** When a host is ready for `resume`, in terms of its boot line, its modules and its GPUs alone. */
module Readiness {
  import opened Wrappers
  import opened Records
  import opened KernelParams
  import opened Sorting
  import opened Resume
  import Text

  // ----- letters in either case -----

  /** The two characters are the same, or one ASCII letter in two cases. */
  ghost predicate SameLetter(a: char, b: char) {
    || a == b
    || ('A' <= a <= 'Z' && b as int == a as int + 32)
    || ('A' <= b <= 'Z' && a as int == b as int + 32)
  }

  ghost predicate SameLetters(a: string, b: string) {
    |a| == |b| && forall i | 0 <= i < |a| :: SameLetter(a[i], b[i])
  }

  lemma LowerSame(a: string, b: string)
    ensures LowerText(a) == LowerText(b) <==> SameLetters(a, b)
  {
    LowerAt(a);
    LowerAt(b);
    hide LowerText;
    forall i | 0 <= i < |a| && i < |b| ensures LowerText(a)[i] == LowerText(b)[i] <==> SameLetter(a[i], b[i]) {
    }
  }

  // ----- the device with an id -----

  /** GPU `k` is the first with this vendor and device, letter case aside. */
  ghost predicate ListedAt(gpus: seq<GpuInfo>, vendor: string, device: string, k: int) {
    && 0 <= k < |gpus| && Answers(gpus[k], vendor, device)
    && forall j | 0 <= j < k :: !Answers(gpus[j], vendor, device)
  }

  ghost predicate Answers(gpu: GpuInfo, vendor: string, device: string) {
    SameLetters(gpu.vendorId, vendor) && SameLetters(gpu.deviceId, device)
  }

  lemma FirstDriverIs(gpus: seq<GpuInfo>, vendor: string, device: string, driver: Option<string>)
    ensures FirstDriver(gpus, LowerText(vendor), LowerText(device)) == Some(driver) <==>
      exists k :: ListedAt(gpus, vendor, device, k) && gpus[k].currentDriver == driver
  {
    hide LowerText, SameLetters;
    if gpus != [] {
      LowerSame(gpus[0].vendorId, vendor);
      LowerSame(gpus[0].deviceId, device);
      FirstDriverIs(gpus[1..], vendor, device, driver);
      ListedLater(gpus, vendor, device, driver);
    }
  }

  lemma ListedLater(gpus: seq<GpuInfo>, vendor: string, device: string, driver: Option<string>)
    requires gpus != []
    ensures (exists k :: ListedAt(gpus, vendor, device, k) && gpus[k].currentDriver == driver) <==>
      if Answers(gpus[0], vendor, device) then gpus[0].currentDriver == driver
      else exists k :: ListedAt(gpus[1..], vendor, device, k) && gpus[1..][k].currentDriver == driver
  {
    hide Answers;
    var rest := gpus[1..];
    if Answers(gpus[0], vendor, device) {
      assert ListedAt(gpus, vendor, device, 0);
      assert forall k | ListedAt(gpus, vendor, device, k) :: k == 0;
    } else {
      forall k | 0 <= k ensures ListedAt(rest, vendor, device, k) <==> ListedAt(gpus, vendor, device, k + 1) {
        assert forall j | 0 <= j < k && j < |rest| :: rest[j] == gpus[j + 1];
      }
      forall k | ListedAt(gpus, vendor, device, k) && gpus[k].currentDriver == driver
        ensures ListedAt(rest, vendor, device, k - 1) && rest[k - 1].currentDriver == driver
      {
      }
      forall k | ListedAt(rest, vendor, device, k) && rest[k].currentDriver == driver
        ensures ListedAt(gpus, vendor, device, k + 1) && gpus[k + 1].currentDriver == driver
      {
      }
    }
  }

  /** The GPU an id names: its vendor up to the first colon, its device after it. */
  ghost predicate Drives(gpus: seq<GpuInfo>, id: string, driver: Option<string>) {
    exists vendor, device, k ::
      && ':' !in vendor && id == vendor + ":" + device
      && ListedAt(gpus, vendor, device, k) && gpus[k].currentDriver == driver
  }

  lemma DriverIs(gpus: seq<GpuInfo>, id: string, driver: Option<string>)
    ensures DriverOf(gpus, id) == Some(driver) <==> Drives(gpus, id, driver)
  {
    hide FirstDriver, LowerText, Answers;
    var colon := Text.Find(id, ':');
    if colon < |id| {
      var v, d := id[..colon], id[colon + 1..];
      assert id == v + ":" + d;
      FirstDriverIs(gpus, v, d, driver);
      forall vendor, device | ':' !in vendor && id == vendor + ":" + device ensures vendor == v && device == d {
        assert id[|vendor|] == ':' && id[..|vendor|] == vendor && id[|vendor| + 1..] == device;
        Text.FindAt(id, ':', |vendor|);
      }
    }
    if Drives(gpus, id, driver) {
      var vendor, device, k :| ':' !in vendor && id == vendor + ":" + device
        && ListedAt(gpus, vendor, device, k) && gpus[k].currentDriver == driver;
      assert id[|vendor|] == ':';
    }
  }

  // ----- words of the boot line -----

  /** `word` stands in the line between blanks or ends. */
  ghost predicate HasWord(line: string, word: string) {
    exists i: nat :: WordAt(line, word, i)
  }

  ghost predicate WordAt(line: string, word: string, i: nat) {
    && i + |word| <= |line| && line[i..i + |word|] == word
    && (i == 0 || Text.IsSpace(line[i - 1]))
    && (i + |word| == |line| || Text.IsSpace(line[i + |word|]))
  }

  lemma TokenIffWord(line: string, word: string)
    requires Text.Word(word)
    ensures word in Text.Tokens(line) <==> HasWord(line, word)
    decreases |line|
  {
    hide Text.IsSpace, Text.WordLength;
    if line == "" {
    } else if Text.IsSpace(line[0]) {
      TokenIffWord(line[1..], word);
      WordsAfterSpace(line, word);
    } else {
      var n := Text.WordLength(line);
      WordLengthIsPositive(line);
      TokenIffWord(line[n..], word);
      WordsAfterWord(line, word, n);
    }
  }

  lemma WordLengthIsPositive(s: string)
    requires s != "" && !Text.IsSpace(s[0])
    ensures Text.WordLength(s) > 0
  {
  }

  lemma WordsAfterSpace(line: string, word: string)
    requires line != "" && Text.IsSpace(line[0]) && Text.Word(word)
    ensures HasWord(line, word) <==> HasWord(line[1..], word)
  {
    hide Text.IsSpace;
    forall i: nat | WordAt(line, word, i) ensures i > 0 && WordAt(line[1..], word, i - 1) {
      assert line[i] == word[0];
      assert line[1..][i - 1..i - 1 + |word|] == line[i..i + |word|];
    }
    forall i: nat | WordAt(line[1..], word, i) ensures WordAt(line, word, i + 1) {
      assert line[1..][i..i + |word|] == line[i + 1..i + 1 + |word|];
    }
  }

  lemma WordsAfterWord(line: string, word: string, n: nat)
    requires 0 < n <= |line| && Text.Word(word)
    requires forall k | 0 <= k < n :: !Text.IsSpace(line[k])
    requires n < |line| ==> Text.IsSpace(line[n])
    ensures HasWord(line, word) <==> word == line[..n] || HasWord(line[n..], word)
  {
    hide Text.IsSpace, WordAt;
    var rest := line[n..];
    if word == line[..n] {
      WholeWordAt(line, word, n);
    }
    forall i: nat | WordAt(rest, word, i) ensures WordAt(line, word, n + i) {
      WordFurther(line, word, n, i);
    }
    forall i: nat | WordAt(line, word, i) ensures word == line[..n] || (i >= n && WordAt(rest, word, i - n)) {
      if i < n {
        FirstWordWhole(line, word, n, i);
      } else {
        WordEarlier(line, word, n, i);
      }
    }
  }

  lemma WholeWordAt(line: string, word: string, n: nat)
    requires n <= |line| && word == line[..n] && (n < |line| ==> Text.IsSpace(line[n]))
    ensures WordAt(line, word, 0)
  {
  }

  lemma WordFurther(line: string, word: string, n: nat, i: nat)
    requires n <= |line| && Text.Word(word) && WordAt(line[n..], word, i)
    requires n < |line| ==> Text.IsSpace(line[n])
    ensures WordAt(line, word, n + i)
  {
    hide Text.IsSpace;
    var rest := line[n..];
    assert rest[i..i + |word|] == line[n + i..n + i + |word|];
    assert rest[i] == word[0];
  }

  lemma WordEarlier(line: string, word: string, n: nat, i: nat)
    requires n <= i && n <= |line| && WordAt(line, word, i)
    ensures WordAt(line[n..], word, i - n)
  {
    hide Text.IsSpace;
    assert line[n..][i - n..i - n + |word|] == line[i..i + |word|];
  }

  lemma FirstWordWhole(line: string, word: string, n: nat, i: nat)
    requires i < n <= |line| && Text.Word(word) && WordAt(line, word, i)
    requires forall k | 0 <= k < n :: !Text.IsSpace(line[k])
    requires n < |line| ==> Text.IsSpace(line[n])
    ensures word == line[..n]
  {
    hide Text.IsSpace;
    assert i == 0;
    var m := |word|;
    assert forall k | 0 <= k < m :: line[k] == word[k];
    assert m == n;
  }

  // ----- what the verifier finds -----

  ghost predicate Mentions(line: string, part: string) {
    exists i: nat :: MentionedAt(line, part, i)
  }

  ghost predicate MentionedAt(line: string, part: string, i: nat) {
    i + |part| <= |line| && line[i..i + |part|] == part
  }

  lemma MentionsIs(line: string, part: string)
    ensures Text.Contains(line, part) <==> Mentions(line, part)
  {
    if Text.Contains(line, part) {
      var i :| 0 <= i <= |line| && Text.OccursAt(line, part, i);
      assert MentionedAt(line, part, i);
    }
    if Mentions(line, part) {
      var i: nat :| MentionedAt(line, part, i);
      assert Text.OccursAt(line, part, i);
    }
  }

  ghost function IommuParam(vendor: string): string {
    if NamesAmd(vendor) then "amd_iommu=on" else "intel_iommu=on"
  }

  /** The boot line lacks a parameter: the two switches as words, the ids with their key anywhere. */
  ghost predicate Lacks(profile: SystemProfile, ids: seq<string>, param: string) {
    || (param in [IommuParam(profile.cpuVendor), "iommu=pt"] && !HasWord(profile.kernelCmdline, param))
    || (ids != [] && param == "vfio-pci.ids=" + Text.Join(ids, ",") && !Mentions(profile.kernelCmdline, param))
  }

  lemma SameIdList(a: seq<string>, b: seq<string>)
    requires StrictlySorted(StringLeq, a) && StrictlySorted(StringLeq, b) && forall v :: v in a <==> v in b
    ensures a == b
  {
    StringLeqIsTotalOrder();
    StrictlySortedUnique(StringLeq, a, b);
  }

  /** What a divergence says of a host on which the devices with these ids are to be passed through. */
  ghost predicate Diverges(profile: SystemProfile, ids: seq<string>, d: Divergence) {
    match d
    case IommuNotActive => !profile.iommuActive
    case VfioModuleNotLoaded => "vfio_pci" !in profile.loadedModules
    case KernelCmdlineMissing(param) => Lacks(profile, ids, param)
    case VfioPciNotBoundTo(id, driver) => id in ids && Drives(profile.gpus, id, driver) && driver != Some("vfio-pci")
    case _ => false
  }

  lemma SwitchesAreWords(param: string)
    requires param in ["amd_iommu=on", "intel_iommu=on", "iommu=pt"]
    ensures Text.Word(param) && !(IDS_PREFIX <= param)
  {
    if param == "amd_iommu=on" {
      PlainWord("amd_iommu=on");
    } else if param == "intel_iommu=on" {
      PlainWord("intel_iommu=on");
    } else {
      PlainWord("iommu=pt");
    }
    assert param[0] != 'v';
  }

  lemma PlainWord(s: string)
    requires s != "" && forall k | 0 <= k < |s| :: '=' <= s[k] <= '~'
    ensures Text.Word(s)
  {
  }

  /** The boot line lacks what the verifier requires and does not find. */
  lemma LacksRequired(profile: SystemProfile, ids: seq<string>, param: string)
    ensures Lacks(profile, ids, param) <==>
      param in RequiredCmdlineParams(CpuParam(profile.cpuVendor), ids) && !CmdlineHasParam(profile.kernelCmdline, param)
  {
    hide HasWord, Mentions, Text.Contains, Text.Tokens, CpuParam, NamesAmd, Text.Join, Text.Word;
    CpuParamByVendor(profile.cpuVendor);
    var cpu, listed := CpuParam(profile.cpuVendor), "vfio-pci.ids=" + Text.Join(ids, ",");
    assert IOMMU_PT == "iommu=pt" && IdsParam(ids) == listed;
    MentionsIs(profile.kernelCmdline, listed);
    if param in ["amd_iommu=on", "intel_iommu=on", "iommu=pt"] {
      SwitchesAreWords(param);
      TokenIffWord(profile.kernelCmdline, param);
    }
    SwitchesAreWords("iommu=pt");
    assert IDS_PREFIX <= listed;
  }

  lemma LacksIs(profile: SystemProfile, pending: PendingPlan, param: string)
    ensures Observed(profile, pending, KernelCmdlineMissing(param)) <==>
      Lacks(profile, pending.fingerprint.passthroughPciIds, param)
  {
    hide Lacks, CmdlineHasParam, RequiredCmdlineParams, CpuParam;
    LacksRequired(profile, pending.fingerprint.passthroughPciIds, param);
  }

  /** The verifier's divergences are these and no others. */
  lemma DivergencesAre(profile: SystemProfile, pending: PendingPlan, d: Divergence)
    ensures Observed(profile, pending, d) <==> Diverges(profile, pending.fingerprint.passthroughPciIds, d)
  {
    hide Lacks, Drives, ParamsToFind, CmdlineHasParam, DriverOf;
    match d
    case KernelCmdlineMissing(param) => LacksIs(profile, pending, param);
    case VfioPciNotBoundTo(id, driver) => DriverIs(profile.gpus, id, driver);
    case _ =>
  }

  // ----- the verdict -----

  /** The devices to pass through on `host`, in order. */
  ghost predicate IdsToPass(host: SystemProfile, config: PassthroughConfig, ids: seq<string>) {
    && StrictlySorted(StringLeq, ids)
    && forall v :: v in ids <==> PassesThrough(config.gpuRoles, host.gpus, v)
  }

  /** Nothing is amiss on the host: the switches work, the module is there, the devices are bound. */
  ghost predicate InEffect(profile: SystemProfile, ids: seq<string>) {
    && profile.iommuActive
    && "vfio_pci" in profile.loadedModules
    && HasWord(profile.kernelCmdline, IommuParam(profile.cpuVendor))
    && HasWord(profile.kernelCmdline, "iommu=pt")
    && (ids != [] ==> Mentions(profile.kernelCmdline, "vfio-pci.ids=" + Text.Join(ids, ",")))
    && forall id, driver | id in ids && Drives(profile.gpus, id, driver) :: driver == Some("vfio-pci")
  }

  lemma InEffectIff(profile: SystemProfile, ids: seq<string>)
    ensures InEffect(profile, ids) <==> forall d :: !Diverges(profile, ids, d)
  {
    hide HasWord, Mentions, Drives, NamesAmd, Text.Join;
    if forall d :: !Diverges(profile, ids, d) {
      assert !Diverges(profile, ids, IommuNotActive) && !Diverges(profile, ids, VfioModuleNotLoaded);
      assert !Diverges(profile, ids, KernelCmdlineMissing(IommuParam(profile.cpuVendor)));
      assert !Diverges(profile, ids, KernelCmdlineMissing("iommu=pt"));
      assert !Diverges(profile, ids, KernelCmdlineMissing("vfio-pci.ids=" + Text.Join(ids, ",")));
      forall id, driver | id in ids && Drives(profile.gpus, id, driver) ensures driver == Some("vfio-pci") {
        assert !Diverges(profile, ids, VfioPciNotBoundTo(id, driver));
      }
    }
  }

  /** The verdict on a host for a record, with all its reasons. */
  ghost predicate IsVerdict(profile: SystemProfile, pending: PendingPlan, r: ResumeReadiness) {
    var expected, ids := pending.fingerprint, pending.fingerprint.passthroughPciIds;
    if (profile.distroId != expected.distroId || profile.bootloader.kind != expected.bootloader
        || profile.initramfs != expected.initramfs)
    then r.WrongHost? && forall m :: m in r.reasons <==> Differs(profile, expected, m)
    else if InEffect(profile, ids) then r == Ready
    else r.NotReady? && forall d :: d in r.divergences <==> Diverges(profile, ids, d)
  }

  lemma OneVerdict(profile: SystemProfile, pending: PendingPlan, r: ResumeReadiness)
    requires IsVerdict(profile, pending, r)
    ensures r.Ready? <==> IsVerdict(profile, pending, Ready)
  {
    hide InEffect, Diverges;
  }

  /** The verdict the verifier gives is this one. */
  lemma VerdictIs(profile: SystemProfile, pending: PendingPlan, r: ResumeReadiness)
    requires r.WrongHost? <==> !SameHost(profile, pending.fingerprint)
    requires r.WrongHost? ==> forall m :: m in r.reasons <==> Differs(profile, pending.fingerprint, m)
    requires r.Ready? <==> SameHost(profile, pending.fingerprint) && forall d :: !Observed(profile, pending, d)
    requires r.NotReady? ==> forall d :: d in r.divergences <==> Observed(profile, pending, d)
    ensures IsVerdict(profile, pending, r)
  {
    hide Observed, Diverges, Differs, InEffect;
    var ids := pending.fingerprint.passthroughPciIds;
    forall d ensures Observed(profile, pending, d) <==> Diverges(profile, ids, d) {
      DivergencesAre(profile, pending, d);
    }
    InEffectIff(profile, ids);
  }
}
