/** Choosing default GPU roles, the mode they imply, and the checks they must pass. */
module GpuRoles {
  import opened Wrappers
  import opened Records

  // ----- reading a role list -----

  function FindGpu(gpus: seq<GpuInfo>, slot: string): Option<GpuInfo> {
    if gpus == [] then None
    else if gpus[0].pciSlot == slot then Some(gpus[0])
    else FindGpu(gpus[1..], slot)
  }

  /** GPU `k` is the first with this slot. */
  predicate FoundAt(gpus: seq<GpuInfo>, slot: string, k: int) {
    0 <= k < |gpus| && gpus[k].pciSlot == slot && forall j | 0 <= j < k :: gpus[j].pciSlot != slot
  }

  lemma {:induction false} FindGpuIff(gpus: seq<GpuInfo>, slot: string, g: GpuInfo)
    ensures FindGpu(gpus, slot) == Some(g) <==> exists k :: FoundAt(gpus, slot, k) && gpus[k] == g
  {
    if gpus != [] {
      var rest := gpus[1..];
      FindGpuIff(rest, slot, g);
      if gpus[0].pciSlot == slot {
        assert FoundAt(gpus, slot, 0);
        assert forall k | FoundAt(gpus, slot, k) :: k == 0;
      } else {
        forall k | 0 <= k ensures FoundAt(rest, slot, k) <==> FoundAt(gpus, slot, k + 1) {
          assert forall j | 0 <= j < k && j < |rest| :: rest[j] == gpus[j + 1];
        }
        if exists k :: FoundAt(gpus, slot, k) && gpus[k] == g {
          var k :| FoundAt(gpus, slot, k) && gpus[k] == g;
          assert FoundAt(rest, slot, k - 1) && rest[k - 1] == g;
        }
        if exists k :: FoundAt(rest, slot, k) && rest[k] == g {
          var k :| FoundAt(rest, slot, k) && rest[k] == g;
          assert FoundAt(gpus, slot, k + 1) && gpus[k + 1] == g;
        }
      }
    }
  }

  /** The assignments with a given role, in user order. */
  function WithRole(roles: seq<GpuRoleAssignment>, role: GpuRole): seq<GpuRoleAssignment> {
    if roles == [] then []
    else (if roles[0].role == role then [roles[0]] else []) + WithRole(roles[1..], role)
  }

  /** The GPU of the only assignment with `role`. */
  function SoleGpu(roles: seq<GpuRoleAssignment>, gpus: seq<GpuInfo>, role: GpuRole): Option<GpuInfo> {
    var chosen := WithRole(roles, role);
    if |chosen| != 1 then None else FindGpu(gpus, chosen[0].pciSlot)
  }

  function PrimaryPassthroughGpu(config: PassthroughConfig, profile: SystemProfile): Option<GpuInfo> {
    SoleGpu(config.gpuRoles, profile.gpus, Passthrough)
  }

  function PassthroughGpus(roles: seq<GpuRoleAssignment>, gpus: seq<GpuInfo>): seq<GpuInfo> {
    if roles == [] then []
    else
      (if roles[0].role == Passthrough then
         match FindGpu(gpus, roles[0].pciSlot) { case None => [] case Some(g) => [g] }
       else []) + PassthroughGpus(roles[1..], gpus)
  }

  function DerivedMode(roles: seq<GpuRoleAssignment>, gpus: seq<GpuInfo>): Option<GpuPassthroughMode> {
    var passCount, hostCount := |WithRole(roles, Passthrough)|, |WithRole(roles, Host)|;
    if passCount == 0 then None
    else if passCount >= 2 then Some(MultiGpu)
    else if hostCount == 0 then Some(SingleGpu)
    else
      match SoleGpu(roles, gpus, Host)
      case None => None
      case Some(g) => Some(if g.gpuType == Integrated then IgpuHost else DualGpu)
  }

  // ----- the recommendation -----

  function FirstWhere(gpus: seq<GpuInfo>, p: GpuInfo -> bool): (r: Option<GpuInfo>)
    ensures r.Some? ==> r.value in gpus && p(r.value)
    ensures r.None? ==> forall g | g in gpus :: !p(g)
  {
    if gpus == [] then None
    else if p(gpus[0]) then Some(gpus[0])
    else FirstWhere(gpus[1..], p)
  }

  function OrElse<T>(a: Option<T>, b: Option<T>): Option<T> {
    if a.Some? then a else b
  }

  function IntegratedGpu(gpus: seq<GpuInfo>): Option<GpuInfo> {
    FirstWhere(gpus, (g: GpuInfo) => g.gpuType == Integrated)
  }

  function CandidateDiscrete(gpus: seq<GpuInfo>): Option<GpuInfo> {
    OrElse(
      FirstWhere(gpus, (g: GpuInfo) => g.gpuType == Discrete && g.iommuIsolated),
      FirstWhere(gpus, (g: GpuInfo) => g.gpuType == Discrete))
  }

  function PassCandidate(gpus: seq<GpuInfo>): GpuInfo
    requires |gpus| >= 2
  {
    var c := OrElse(
      FirstWhere(gpus, (g: GpuInfo) => g.iommuIsolated && !g.isBootVga),
      OrElse(
        FirstWhere(gpus, (g: GpuInfo) => g.iommuIsolated),
        FirstWhere(gpus, (g: GpuInfo) => !g.isBootVga)));
    if c.Some? then c.value else gpus[1]
  }

  function HostCandidate(gpus: seq<GpuInfo>, pass: GpuInfo): GpuInfo
    requires |gpus| >= 2
  {
    var c := OrElse(
      FirstWhere(gpus, (g: GpuInfo) => g.isBootVga && g.pciSlot != pass.pciSlot),
      FirstWhere(gpus, (g: GpuInfo) => g.pciSlot != pass.pciSlot));
    if c.Some? then c.value else gpus[0]
  }

  datatype Choice = Choice(mode: GpuPassthroughMode, host: Option<GpuInfo>, pass: GpuInfo)

  /** Which GPU goes to the guest and which stays. */
  function Choose(gpus: seq<GpuInfo>): Choice
    requires gpus != []
  {
    if |gpus| == 1 then Choice(SingleGpu, None, gpus[0])
    else
      var igpu, dgpu := IntegratedGpu(gpus), CandidateDiscrete(gpus);
      if igpu.Some? && dgpu.Some? then Choice(IgpuHost, igpu, dgpu.value)
      else
        var pass := PassCandidate(gpus);
        Choice(DualGpu, Some(HostCandidate(gpus, pass)), pass)
  }

  function RoleOf(gpu: GpuInfo, choice: Choice): GpuRole {
    if choice.host.Some? && gpu.pciSlot == choice.host.value.pciSlot then Host
    else if gpu.pciSlot == choice.pass.pciSlot then Passthrough
    else Ignored
  }

  function RolesFor(gpus: seq<GpuInfo>, choice: Choice): seq<GpuRoleAssignment> {
    seq(|gpus|, i requires 0 <= i < |gpus| => GpuRoleAssignment(gpus[i].pciSlot, RoleOf(gpus[i], choice)))
  }

  method RecommendGpuAssignment(gpus: seq<GpuInfo>) returns (mode: GpuPassthroughMode, roles: seq<GpuRoleAssignment>)
    requires gpus != []
    ensures mode == Choose(gpus).mode && roles == RolesFor(gpus, Choose(gpus))
  {
    if |gpus| == 1 {
      return SingleGpu, [GpuRoleAssignment(gpus[0].pciSlot, Passthrough)];
    }
    var igpu := IntegratedGpu(gpus);
    var dgpu := CandidateDiscrete(gpus);
    roles := [];
    if igpu.Some? && dgpu.Some? {
      for i := 0 to |gpus|
        invariant roles == RolesFor(gpus, Choose(gpus))[..i]
      {
        var role := if gpus[i].pciSlot == igpu.value.pciSlot then Host
                    else if gpus[i].pciSlot == dgpu.value.pciSlot then Passthrough
                    else Ignored;
        roles := roles + [GpuRoleAssignment(gpus[i].pciSlot, role)];
      }
      return IgpuHost, roles;
    }
    var pass := PassCandidate(gpus);
    var host := HostCandidate(gpus, pass);
    for i := 0 to |gpus|
      invariant roles == RolesFor(gpus, Choose(gpus))[..i]
    {
      var role := if gpus[i].pciSlot == host.pciSlot then Host
                  else if gpus[i].pciSlot == pass.pciSlot then Passthrough
                  else Ignored;
      roles := roles + [GpuRoleAssignment(gpus[i].pciSlot, role)];
    }
    return DualGpu, roles;
  }

  // ----- the role checks -----

  datatype Severity = Error | Warning

  datatype IssueId =
    | GpuRolesEmpty
    | GpuRoleSlotUnknown
    | GpuRoleDuplicate
    | GpuRoleMissing
    | GpuModeMismatch
    | PassthroughGpuNotIsolated
    | HostGpuPassthroughBound
    | SingleGpuRiskAcknowledged
    | MultiGpuNotImplemented

  datatype Issue = Issue(id: IssueId, severity: Severity)

  predicate Assigned(roles: seq<GpuRoleAssignment>, slot: string) {
    exists r | r in roles :: r.pciSlot == slot
  }

  predicate Detected(gpus: seq<GpuInfo>, slot: string) {
    exists g | g in gpus :: g.pciSlot == slot
  }

  function SlotIssues(roles: seq<GpuRoleAssignment>, gpus: seq<GpuInfo>): seq<Issue> {
    if roles == [] then []
    else
      var front, last := roles[..|roles| - 1], roles[|roles| - 1];
      SlotIssues(front, gpus)
      + (if Assigned(front, last.pciSlot) then [Issue(GpuRoleDuplicate, Error)] else [])
      + (if Detected(gpus, last.pciSlot) then [] else [Issue(GpuRoleSlotUnknown, Error)])
  }

  function MissingIssues(roles: seq<GpuRoleAssignment>, gpus: seq<GpuInfo>): seq<Issue> {
    if gpus == [] then []
    else
      var front, last := gpus[..|gpus| - 1], gpus[|gpus| - 1];
      MissingIssues(roles, front)
      + (if Assigned(roles, last.pciSlot) then [] else [Issue(GpuRoleMissing, Error)])
  }

  function DeviceIssues(
    roles: seq<GpuRoleAssignment>, gpus: seq<GpuInfo>, bad: GpuInfo -> bool, issue: Issue): seq<Issue>
  {
    if roles == [] then []
    else
      var front, last := roles[..|roles| - 1], roles[|roles| - 1];
      var gpu := FindGpu(gpus, last.pciSlot);
      DeviceIssues(front, gpus, bad, issue) + (if gpu.Some? && bad(gpu.value) then [issue] else [])
  }

  function NotIsolated(g: GpuInfo): bool {
    !g.iommuIsolated
  }

  function BoundToVfio(g: GpuInfo): bool {
    g.currentDriver == Some("vfio-pci")
  }

  function ModeIssues(stated: GpuPassthroughMode, derived: Option<GpuPassthroughMode>): seq<Issue> {
    if derived.None? then []
    else
      (if derived.value != stated then [Issue(GpuModeMismatch, Error)] else [])
      + (match derived.value
         case SingleGpu => [Issue(SingleGpuRiskAcknowledged, Warning)]
         case MultiGpu => [Issue(MultiGpuNotImplemented, Error)]
         case _ => [])
  }

  function RoleIssues(gpus: seq<GpuInfo>, stated: GpuPassthroughMode, roles: seq<GpuRoleAssignment>): seq<Issue> {
    if roles == [] then [Issue(GpuRolesEmpty, Error)]
    else
      SlotIssues(roles, gpus)
      + MissingIssues(roles, gpus)
      + (if WithRole(roles, Passthrough) == [] then [Issue(GpuRoleMissing, Error)] else [])
      + DeviceIssues(WithRole(roles, Passthrough), gpus, NotIsolated, Issue(PassthroughGpuNotIsolated, Error))
      + DeviceIssues(WithRole(roles, Host), gpus, BoundToVfio, Issue(HostGpuPassthroughBound, Error))
      + ModeIssues(stated, DerivedMode(roles, gpus))
  }

  method CheckGpuRoles(profile: SystemProfile, config: PassthroughConfig, issues: seq<Issue>)
    returns (all: seq<Issue>, derived: Option<GpuPassthroughMode>)
    ensures all == issues + RoleIssues(profile.gpus, config.gpuMode, config.gpuRoles)
    ensures derived == if config.gpuRoles == [] then None else DerivedMode(config.gpuRoles, profile.gpus)
  {
    var roles, gpus := config.gpuRoles, profile.gpus;
    if roles == [] {
      return issues + [Issue(GpuRolesEmpty, Error)], None;
    }
    var slots := CheckSlots(roles, gpus);
    var missing := CheckMissing(roles, gpus);
    var pass, host := WithRole(roles, Passthrough), WithRole(roles, Host);
    var none := if pass == [] then [Issue(GpuRoleMissing, Error)] else [];
    var isolation := CheckDevices(pass, gpus, NotIsolated, Issue(PassthroughGpuNotIsolated, Error));
    var binding := CheckDevices(host, gpus, BoundToVfio, Issue(HostGpuPassthroughBound, Error));
    derived := DerivedMode(roles, gpus);
    all := issues + (slots + missing + none + isolation + binding + ModeIssues(config.gpuMode, derived));
  }

  method CheckSlots(roles: seq<GpuRoleAssignment>, gpus: seq<GpuInfo>) returns (issues: seq<Issue>)
    ensures issues == SlotIssues(roles, gpus)
  {
    issues := [];
    var seen: seq<string> := [];
    for i := 0 to |roles|
      invariant issues == SlotIssues(roles[..i], gpus)
      invariant forall s :: s in seen <==> Assigned(roles[..i], s)
    {
      ghost var front := roles[..i];
      assert roles[..i + 1][..i] == front && roles[..i + 1] == front + [roles[i]];
      if roles[i].pciSlot in seen {
        issues := issues + [Issue(GpuRoleDuplicate, Error)];
      } else {
        seen := seen + [roles[i].pciSlot];
      }
      if !Detected(gpus, roles[i].pciSlot) {
        issues := issues + [Issue(GpuRoleSlotUnknown, Error)];
      }
      AssignedSnoc(front, roles[i]);
    }
    assert roles[..|roles|] == roles;
  }

  lemma AssignedSnoc(front: seq<GpuRoleAssignment>, last: GpuRoleAssignment)
    ensures forall s :: Assigned(front + [last], s) <==> Assigned(front, s) || last.pciSlot == s
  {
    forall s ensures Assigned(front + [last], s) <==> Assigned(front, s) || last.pciSlot == s {
      assert last in front + [last];
      if Assigned(front, s) {
        var r :| r in front && r.pciSlot == s;
        assert r in front + [last];
      }
    }
  }

  method CheckMissing(roles: seq<GpuRoleAssignment>, gpus: seq<GpuInfo>) returns (issues: seq<Issue>)
    ensures issues == MissingIssues(roles, gpus)
  {
    issues := [];
    for i := 0 to |gpus|
      invariant issues == MissingIssues(roles, gpus[..i])
    {
      assert gpus[..i + 1][..i] == gpus[..i];
      if !Assigned(roles, gpus[i].pciSlot) {
        issues := issues + [Issue(GpuRoleMissing, Error)];
      }
    }
    assert gpus[..|gpus|] == gpus;
  }

  method CheckDevices(roles: seq<GpuRoleAssignment>, gpus: seq<GpuInfo>, bad: GpuInfo -> bool, issue: Issue)
    returns (issues: seq<Issue>)
    ensures issues == DeviceIssues(roles, gpus, bad, issue)
  {
    issues := [];
    for i := 0 to |roles|
      invariant issues == DeviceIssues(roles[..i], gpus, bad, issue)
    {
      assert roles[..i + 1][..i] == roles[..i];
      var gpu := FindGpu(gpus, roles[i].pciSlot);
      if gpu.Some? && bad(gpu.value) {
        issues := issues + [issue];
      }
    }
    assert roles[..|roles|] == roles;
  }

  // ----- the recommendation is sound -----

  ghost predicate DistinctSlots(gpus: seq<GpuInfo>) {
    forall i, j | 0 <= i < j < |gpus| :: gpus[i].pciSlot != gpus[j].pciSlot
  }

  lemma FindGpuAt(gpus: seq<GpuInfo>, g: GpuInfo)
    requires DistinctSlots(gpus) && g in gpus
    ensures FindGpu(gpus, g.pciSlot) == Some(g)
  {
    if gpus[0] != g {
      assert g in gpus[1..];
      var k :| 0 <= k < |gpus[1..]| && gpus[1..][k] == g;
      assert gpus[k + 1] == g;
    }
  }

  /** The two choices are different GPUs of the list. */
  lemma ChoiceIsOfTheList(gpus: seq<GpuInfo>)
    requires gpus != [] && DistinctSlots(gpus)
    ensures var c := Choose(gpus);
      && c.pass in gpus
      && (c.host.Some? <==> |gpus| >= 2)
      && (c.host.Some? ==> c.host.value in gpus && c.host.value.pciSlot != c.pass.pciSlot)
  {
    var c := Choose(gpus);
    if |gpus| >= 2 {
      assert gpus[0].pciSlot != gpus[1].pciSlot;
      assert gpus[0] in gpus && gpus[1] in gpus;
      if c.mode == IgpuHost {
        FindGpuAt(gpus, c.host.value);
        FindGpuAt(gpus, c.pass);
      }
    }
  }

  /** Exactly one assignment has a role that exactly one GPU gets. */
  lemma {:induction false} SoleRole(gpus: seq<GpuInfo>, choice: Choice, role: GpuRole, g: GpuInfo)
    requires DistinctSlots(gpus) && g in gpus && RoleOf(g, choice) == role
    requires forall h | h in gpus && h.pciSlot != g.pciSlot :: RoleOf(h, choice) != role
    ensures WithRole(RolesFor(gpus, choice), role) == [GpuRoleAssignment(g.pciSlot, role)]
  {
    var rest := gpus[1..];
    assert RolesFor(gpus, choice)[1..] == RolesFor(rest, choice);
    assert gpus == [gpus[0]] + rest;
    if gpus[0].pciSlot == g.pciSlot {
      FindGpuAt(gpus, g);
      forall h | h in rest ensures RoleOf(h, choice) != role {
        var k :| 0 <= k < |rest| && rest[k] == h;
        assert gpus[k + 1] == h;
      }
      NoRole(rest, choice, role);
    } else {
      SoleRole(rest, choice, role, g);
    }
  }

  lemma NoRole(gpus: seq<GpuInfo>, choice: Choice, role: GpuRole)
    requires forall h | h in gpus :: RoleOf(h, choice) != role
    ensures WithRole(RolesFor(gpus, choice), role) == []
  {
    if gpus != [] {
      assert RolesFor(gpus, choice)[1..] == RolesFor(gpus[1..], choice);
      assert gpus[0] in gpus;
      NoRole(gpus[1..], choice, role);
    }
  }

  /**
   * One role per GPU in order, exactly one passthrough GPU, and exactly one host GPU when there
   * are two or more.
   */
  lemma RecommendationShape(gpus: seq<GpuInfo>)
    requires gpus != [] && DistinctSlots(gpus)
    ensures var c := Choose(gpus); var roles := RolesFor(gpus, c);
      && |roles| == |gpus| && (forall i | 0 <= i < |gpus| :: roles[i].pciSlot == gpus[i].pciSlot)
      && WithRole(roles, Passthrough) == [GpuRoleAssignment(c.pass.pciSlot, Passthrough)]
      && WithRole(roles, Host) == (if |gpus| >= 2 then [GpuRoleAssignment(c.host.value.pciSlot, Host)] else [])
  {
    var c := Choose(gpus);
    ChoiceIsOfTheList(gpus);
    SoleRole(gpus, c, Passthrough, c.pass);
    if |gpus| >= 2 {
      SoleRole(gpus, c, Host, c.host.value);
    } else {
      NoRole(gpus, c, Host);
    }
  }

  // ----- who passes and who stays, without a discrete GPU beside an integrated one -----

  /** The order of preference for the passthrough GPU; the worst is a boot GPU that is not isolated. */
  function Rank(g: GpuInfo): nat {
    if g.iommuIsolated then (if g.isBootVga then 1 else 0)
    else if g.isBootVga then 3 else 2
  }

  /** GPU `p` is the first of the best rank, or the second of the list if all have the worst. */
  ghost predicate PassesAt(gpus: seq<GpuInfo>, p: nat) {
    && p < |gpus|
    && if forall i | 0 <= i < |gpus| :: Rank(gpus[i]) == 3 then p == 1
       else forall i | 0 <= i < |gpus| :: Rank(gpus[p]) < Rank(gpus[i]) + (if p <= i then 1 else 0)
  }

  /** GPU `h` is the first boot GPU besides `p`, or the first one besides `p` if there is none. */
  ghost predicate HostsAt(gpus: seq<GpuInfo>, p: nat, h: nat) {
    && h < |gpus| && h != p
    && forall i | 0 <= i < |gpus| && i != p ::
         (gpus[i].isBootVga ==> gpus[h].isBootVga) && (gpus[i].isBootVga == gpus[h].isBootVga ==> h <= i)
  }

  lemma FirstIndex(gpus: seq<GpuInfo>, good: GpuInfo -> bool) returns (k: nat)
    requires FirstWhere(gpus, good).Some?
    ensures k < |gpus| && FirstWhere(gpus, good) == Some(gpus[k])
    ensures good(gpus[k]) && forall i | 0 <= i < k :: !good(gpus[i])
  {
    if good(gpus[0]) {
      k := 0;
    } else {
      var rest := FirstIndex(gpus[1..], good);
      k := rest + 1;
      assert forall i | 1 <= i < k :: gpus[i] == gpus[1..][i - 1];
    }
  }

  lemma NoneWhere(gpus: seq<GpuInfo>, good: GpuInfo -> bool)
    requires FirstWhere(gpus, good).None?
    ensures forall i | 0 <= i < |gpus| :: !good(gpus[i])
  {
    assert forall i | 0 <= i < |gpus| :: gpus[i] in gpus;
  }

  lemma PassCandidateAt(gpus: seq<GpuInfo>) returns (p: nat)
    requires |gpus| >= 2
    ensures PassesAt(gpus, p) && PassCandidate(gpus) == gpus[p]
  {
    var best := (g: GpuInfo) => g.iommuIsolated && !g.isBootVga;
    var isolated := (g: GpuInfo) => g.iommuIsolated;
    var other := (g: GpuInfo) => !g.isBootVga;
    if FirstWhere(gpus, best).Some? {
      p := FirstIndex(gpus, best);
      assert Rank(gpus[p]) == 0;
    } else if FirstWhere(gpus, isolated).Some? {
      NoneWhere(gpus, best);
      p := FirstIndex(gpus, isolated);
      assert Rank(gpus[p]) == 1;
    } else if FirstWhere(gpus, other).Some? {
      NoneWhere(gpus, isolated);
      p := FirstIndex(gpus, other);
      assert Rank(gpus[p]) == 2;
    } else {
      NoneWhere(gpus, isolated);
      NoneWhere(gpus, other);
      p := 1;
    }
  }

  lemma HostCandidateAt(gpus: seq<GpuInfo>, p: nat) returns (h: nat)
    requires |gpus| >= 2 && DistinctSlots(gpus) && p < |gpus|
    ensures HostsAt(gpus, p, h) && HostCandidate(gpus, gpus[p]) == gpus[h]
  {
    var pass := gpus[p];
    assert forall i | 0 <= i < |gpus| && i != p :: gpus[i].pciSlot != pass.pciSlot;
    var boot := (g: GpuInfo) => g.isBootVga && g.pciSlot != pass.pciSlot;
    var other := (g: GpuInfo) => g.pciSlot != pass.pciSlot;
    if FirstWhere(gpus, boot).Some? {
      h := FirstIndex(gpus, boot);
    } else {
      NoneWhere(gpus, boot);
      assert other(gpus[if p == 0 then 1 else 0]);
      if FirstWhere(gpus, other).None? {
        NoneWhere(gpus, other);
        assert false;
      } else {
        h := FirstIndex(gpus, other);
      }
    }
  }

  /** No GPU is discrete, and the one that stays on the host is integrated. */
  ghost predicate IntegratedStays(gpus: seq<GpuInfo>) {
    && |gpus| >= 2
    && (forall g | g in gpus :: g.gpuType != Discrete)
    && exists p: nat, h: nat :: PassesAt(gpus, p) && HostsAt(gpus, p, h) && gpus[h].gpuType == Integrated
  }

  /** Both sides of the exception speak of the same GPU. */
  lemma HostIsTheOneThatStays(gpus: seq<GpuInfo>)
    requires |gpus| >= 2 && DistinctSlots(gpus) && forall g | g in gpus :: g.gpuType != Discrete
    ensures HostCandidate(gpus, PassCandidate(gpus)).gpuType == Integrated <==> IntegratedStays(gpus)
  {
    var p := PassCandidateAt(gpus);
    var h := HostCandidateAt(gpus, p);
    hide PassCandidate, HostCandidate;
    forall q: nat, k: nat | PassesAt(gpus, q) && HostsAt(gpus, q, k) ensures gpus[k] == gpus[h] {
      assert q == p by {
        hide HostsAt;
        PassesOnce(gpus, p, q);
      }
      assert k == h;
    }
  }

  lemma PassesOnce(gpus: seq<GpuInfo>, p: nat, q: nat)
    requires PassesAt(gpus, p) && PassesAt(gpus, q)
    ensures p == q
  {
    if exists i | 0 <= i < |gpus| :: Rank(gpus[i]) != 3 {
      assert Rank(gpus[p]) < Rank(gpus[q]) + (if p <= q then 1 else 0);
      assert Rank(gpus[q]) < Rank(gpus[p]) + (if q <= p then 1 else 0);
    }
  }

  /** The mode the roles imply is the mode returned with them, with exactly one exception. */
  lemma DerivedModeAgreesIff(gpus: seq<GpuInfo>)
    requires gpus != [] && DistinctSlots(gpus)
    ensures var c := Choose(gpus);
      && DerivedMode(RolesFor(gpus, c), gpus).Some?
      && (DerivedMode(RolesFor(gpus, c), gpus) == Some(c.mode) <==> !IntegratedStays(gpus))
  {
    hide PassCandidate, HostCandidate, RolesFor, RoleOf;
    var c := Choose(gpus);
    RecommendationShape(gpus);
    ChoiceIsOfTheList(gpus);
    if |gpus| >= 2 {
      FindGpuAt(gpus, c.host.value);
      if forall g | g in gpus :: g.gpuType != Discrete {
        HostIsTheOneThatStays(gpus);
      }
    }
  }

  /**
   * So they agree whenever no GPU is integrated or some GPU is discrete, and never when two or more are all
   * integrated.
   */
  lemma DerivedModeByKinds(gpus: seq<GpuInfo>)
    requires gpus != [] && DistinctSlots(gpus)
    ensures var c := Choose(gpus); var derived := DerivedMode(RolesFor(gpus, c), gpus);
      && ((forall g | g in gpus :: g.gpuType != Integrated) || (exists g | g in gpus :: g.gpuType == Discrete)
          ==> derived == Some(c.mode))
      && (|gpus| >= 2 && (forall g | g in gpus :: g.gpuType == Integrated)
          ==> derived == Some(IgpuHost) != Some(c.mode))
  {
    hide PassCandidate, HostCandidate, RolesFor, RoleOf, DerivedMode, PassesAt;
    DerivedModeAgreesIff(gpus);
    if IntegratedStays(gpus) {
      var p: nat, h: nat :| PassesAt(gpus, p) && HostsAt(gpus, p, h) && gpus[h].gpuType == Integrated;
      assert gpus[h] in gpus;
    }
    if |gpus| >= 2 && forall g | g in gpus :: g.gpuType == Integrated {
      AllIntegrated(gpus);
    }
  }

  lemma AllIntegrated(gpus: seq<GpuInfo>)
    requires |gpus| >= 2 && DistinctSlots(gpus) && forall g | g in gpus :: g.gpuType == Integrated
    ensures var c := Choose(gpus); c.mode == DualGpu && DerivedMode(RolesFor(gpus, c), gpus) == Some(IgpuHost)
  {
    hide PassCandidate, HostCandidate, RolesFor, RoleOf;
    RecommendationShape(gpus);
    ChoiceIsOfTheList(gpus);
    FindGpuAt(gpus, Choose(gpus).host.value);
  }

  /** Two integrated GPUs: dual GPU is recommended, and the roles say that an integrated one hosts. */
  lemma TwoIntegratedGpus(a: GpuInfo, b: GpuInfo)
    requires a.gpuType == Integrated && b.gpuType == Integrated && a.pciSlot != b.pciSlot
    ensures var c := Choose([a, b]);
      c.mode == DualGpu && DerivedMode(RolesFor([a, b], c), [a, b]) == Some(IgpuHost)
  {
    AllIntegrated([a, b]);
  }

  /**
   * The chosen GPU is isolated whenever some eligible one is; eligible means discrete when an integrated GPU keeps
   * the host.
   */
  lemma ChoiceIsIsolated(gpus: seq<GpuInfo>)
    requires |gpus| >= 2
    requires exists g ::
      g in gpus && g.iommuIsolated
      && (IntegratedGpu(gpus).Some? && CandidateDiscrete(gpus).Some? ==> g.gpuType == Discrete)
    ensures Choose(gpus).pass.iommuIsolated
  {
  }

  lemma NoSlotIssues(roles: seq<GpuRoleAssignment>, gpus: seq<GpuInfo>)
    requires forall i, j | 0 <= i < j < |roles| :: roles[i].pciSlot != roles[j].pciSlot
    requires forall i | 0 <= i < |roles| :: Detected(gpus, roles[i].pciSlot)
    ensures SlotIssues(roles, gpus) == []
  {
    if roles != [] {
      var n := |roles| - 1;
      assert forall i | 0 <= i < n :: roles[..n][i] == roles[i];
      NoSlotIssues(roles[..n], gpus);
    }
  }

  lemma NoMissingIssues(roles: seq<GpuRoleAssignment>, gpus: seq<GpuInfo>)
    requires forall i | 0 <= i < |gpus| :: Assigned(roles, gpus[i].pciSlot)
    ensures MissingIssues(roles, gpus) == []
  {
    if gpus != [] {
      var n := |gpus| - 1;
      assert forall i | 0 <= i < n :: gpus[..n][i] == gpus[i];
      NoMissingIssues(roles, gpus[..n]);
    }
  }

  lemma OneDevice(gpus: seq<GpuInfo>, g: GpuInfo, role: GpuRole, bad: GpuInfo -> bool, issue: Issue)
    requires FindGpu(gpus, g.pciSlot) == Some(g)
    ensures DeviceIssues([GpuRoleAssignment(g.pciSlot, role)], gpus, bad, issue) == if bad(g) then [issue] else []
  {
    assert [GpuRoleAssignment(g.pciSlot, role)][..0] == [];
  }

  /** The issues of the recommended roles, in full. */
  lemma RecommendationIssues(gpus: seq<GpuInfo>)
    requires gpus != [] && DistinctSlots(gpus)
    ensures var c := Choose(gpus);
      RoleIssues(gpus, c.mode, RolesFor(gpus, c)) ==
        (if c.pass.iommuIsolated then [] else [Issue(PassthroughGpuNotIsolated, Error)])
        + (if c.host.Some? && BoundToVfio(c.host.value) then [Issue(HostGpuPassthroughBound, Error)] else [])
        + ModeIssues(c.mode, DerivedMode(RolesFor(gpus, c), gpus))
  {
    hide Choose, RolesFor, SlotIssues, MissingIssues, DerivedMode, ModeIssues, FindGpu;
    var c := Choose(gpus);
    RecommendationShape(gpus);
    ChoiceIsOfTheList(gpus);
    RecommendationCovers(gpus);
    FindGpuAt(gpus, c.pass);
    OneDevice(gpus, c.pass, Passthrough, NotIsolated, Issue(PassthroughGpuNotIsolated, Error));
    if |gpus| >= 2 {
      FindGpuAt(gpus, c.host.value);
      OneDevice(gpus, c.host.value, Host, BoundToVfio, Issue(HostGpuPassthroughBound, Error));
    }
  }

  /** Every GPU has one role, and every role a GPU. */
  lemma RecommendationCovers(gpus: seq<GpuInfo>)
    requires gpus != [] && DistinctSlots(gpus)
    ensures var roles := RolesFor(gpus, Choose(gpus)); SlotIssues(roles, gpus) == [] && MissingIssues(roles, gpus) == []
  {
    hide Choose, RoleOf;
    var roles := RolesFor(gpus, Choose(gpus));
    forall i | 0 <= i < |roles| ensures Detected(gpus, roles[i].pciSlot) {
      assert gpus[i] in gpus;
    }
    forall i | 0 <= i < |gpus| ensures Assigned(roles, gpus[i].pciSlot) {
      assert roles[i] in roles;
    }
    NoSlotIssues(roles, gpus);
    NoMissingIssues(roles, gpus);
  }

  /**
   * The checks of the recommended roles raise only what the hardware itself raises: a passthrough
   * GPU that is not isolated, a host GPU bound to vfio-pci, the single-GPU warning, and the mode
   * mismatch of the one exception.
   */
  lemma RecommendationPassesChecks(gpus: seq<GpuInfo>)
    requires gpus != [] && DistinctSlots(gpus)
    ensures var c := Choose(gpus); var issues := RoleIssues(gpus, c.mode, RolesFor(gpus, c));
      && (Issue(GpuModeMismatch, Error) in issues <==> IntegratedStays(gpus))
      && (Issue(PassthroughGpuNotIsolated, Error) in issues <==> !c.pass.iommuIsolated)
      && (Issue(HostGpuPassthroughBound, Error) in issues <==> c.host.Some? && BoundToVfio(c.host.value))
      && (forall i | i in issues ::
            i.id in {GpuModeMismatch, PassthroughGpuNotIsolated, HostGpuPassthroughBound, SingleGpuRiskAcknowledged})
      && (forall i | i in issues :: i.severity == Warning <==> i.id == SingleGpuRiskAcknowledged)
  {
    hide Choose, RolesFor, RoleIssues, ModeIssues, IntegratedStays, FindGpu, RoleOf;
    var c := Choose(gpus);
    RecommendationIssues(gpus);
    DerivedModeAgreesIff(gpus);
    RecommendationShape(gpus);
    var bound := c.host.Some? && BoundToVfio(c.host.value);
    IssuesOfParts(c.pass.iommuIsolated, bound, c.mode, DerivedMode(RolesFor(gpus, c), gpus));
  }

  lemma IssuesOfParts(isolated: bool, bound: bool, stated: GpuPassthroughMode, derived: Option<GpuPassthroughMode>)
    requires derived.Some? && derived != Some(MultiGpu)
    ensures var issues :=
        (if isolated then [] else [Issue(PassthroughGpuNotIsolated, Error)])
        + (if bound then [Issue(HostGpuPassthroughBound, Error)] else [])
        + ModeIssues(stated, derived);
      && (Issue(GpuModeMismatch, Error) in issues <==> derived != Some(stated))
      && (Issue(PassthroughGpuNotIsolated, Error) in issues <==> !isolated)
      && (Issue(HostGpuPassthroughBound, Error) in issues <==> bound)
      && (forall i | i in issues ::
            i.id in {GpuModeMismatch, PassthroughGpuNotIsolated, HostGpuPassthroughBound, SingleGpuRiskAcknowledged})
      && (forall i | i in issues :: i.severity == Warning <==> i.id == SingleGpuRiskAcknowledged)
  {
    hide ModeIssues;
    ModeIssuesShape(stated, derived);
  }

  lemma ModeIssuesShape(stated: GpuPassthroughMode, derived: Option<GpuPassthroughMode>)
    requires derived.Some? && derived != Some(MultiGpu)
    ensures var mode := ModeIssues(stated, derived);
      && (Issue(GpuModeMismatch, Error) in mode <==> derived != Some(stated))
      && (forall i | i in mode :: i == Issue(GpuModeMismatch, Error) || i == Issue(SingleGpuRiskAcknowledged, Warning))
  {
  }
}
