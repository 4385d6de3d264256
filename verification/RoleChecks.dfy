/** What the role checks and the recommendation mean, in terms of the roles and the GPUs alone. */
module RoleChecks {
  import opened Wrappers
  import opened Records
  import opened GpuRoles

  // ----- the assignments with a role -----

  /** Assignment `i` is the only one with `role`. */
  ghost predicate OnlyAt(roles: seq<GpuRoleAssignment>, role: GpuRole, i: int) {
    0 <= i < |roles| && roles[i].role == role && forall j | 0 <= j < |roles| && roles[j].role == role :: j == i
  }

  ghost predicate TwoWith(roles: seq<GpuRoleAssignment>, role: GpuRole) {
    exists i, j | 0 <= i < j < |roles| :: roles[i].role == role && roles[j].role == role
  }

  ghost predicate NoneWith(roles: seq<GpuRoleAssignment>, role: GpuRole) {
    forall r | r in roles :: r.role != role
  }

  /** `g` is the first GPU with the slot of the only assignment with `role`. */
  ghost predicate IsSoleGpu(roles: seq<GpuRoleAssignment>, gpus: seq<GpuInfo>, role: GpuRole, g: GpuInfo) {
    exists i, k :: OnlyAt(roles, role, i) && FoundAt(gpus, roles[i].pciSlot, k) && gpus[k] == g
  }

  lemma WithRoleSnoc(front: seq<GpuRoleAssignment>, last: GpuRoleAssignment, role: GpuRole)
    ensures WithRole(front + [last], role) == WithRole(front, role) + if last.role == role then [last] else []
  {
    if front == [] {
      assert [last][1..] == [];
    } else {
      assert (front + [last])[1..] == front[1..] + [last] && (front + [last])[0] == front[0];
      WithRoleSnoc(front[1..], last, role);
    }
  }

  /** The assignments with a role, by their places. */
  lemma Places(roles: seq<GpuRoleAssignment>, role: GpuRole) returns (at: seq<nat>)
    ensures |at| == |WithRole(roles, role)|
    ensures forall k | 0 <= k < |at| :: at[k] < |roles| && roles[at[k]] == WithRole(roles, role)[k]
    ensures forall j, k | 0 <= j < k < |at| :: at[j] < at[k]
    ensures forall i: nat | i < |roles| :: roles[i].role == role <==> i in at
  {
    if roles == [] {
      at := [];
    } else {
      var n := |roles| - 1;
      var front := Places(roles[..n], role);
      assert roles == roles[..n] + [roles[n]];
      WithRoleSnoc(roles[..n], roles[n], role);
      at := front + if roles[n].role == role then [n] else [];
      forall i: nat | i < |roles| ensures roles[i].role == role <==> i in at {
        if i < n {
          assert roles[..n][i] == roles[i];
        }
      }
    }
  }

  lemma HowMany(roles: seq<GpuRoleAssignment>, role: GpuRole)
    ensures |WithRole(roles, role)| == 0 <==> NoneWith(roles, role)
    ensures |WithRole(roles, role)| >= 2 <==> TwoWith(roles, role)
    ensures forall i :: OnlyAt(roles, role, i) ==> WithRole(roles, role) == [roles[i]]
    ensures |WithRole(roles, role)| == 1 ==> exists i :: OnlyAt(roles, role, i)
  {
    var at := Places(roles, role);
    hide WithRole;
    assert forall k | 0 <= k < |at| :: at[k] in at && roles[at[k]] in roles;
    if |at| >= 2 {
      assert at[0] in at && at[1] in at && at[0] < at[1];
    }
    if |at| == 1 {
      assert at[0] in at;
      assert OnlyAt(roles, role, at[0]);
    }
    forall i | OnlyAt(roles, role, i) ensures WithRole(roles, role) == [roles[i]] {
      assert i in at;
      assert forall k | 0 <= k < |at| :: at[k] in at && at[k] == i;
    }
  }

  lemma SoleGpuIff(roles: seq<GpuRoleAssignment>, gpus: seq<GpuInfo>, role: GpuRole, g: GpuInfo)
    ensures SoleGpu(roles, gpus, role) == Some(g) <==> IsSoleGpu(roles, gpus, role, g)
  {
    hide WithRole, FindGpu;
    HowMany(roles, role);
    if SoleGpu(roles, gpus, role) == Some(g) {
      var i :| OnlyAt(roles, role, i);
      FindGpuIff(gpus, roles[i].pciSlot, g);
    }
    if IsSoleGpu(roles, gpus, role, g) {
      var i, k :| OnlyAt(roles, role, i) && FoundAt(gpus, roles[i].pciSlot, k) && gpus[k] == g;
      FindGpuIff(gpus, roles[i].pciSlot, g);
    }
  }

  /** The GPUs to pass through: those a passthrough role finds. */
  lemma PassthroughGpuIff(roles: seq<GpuRoleAssignment>, gpus: seq<GpuInfo>, g: GpuInfo)
    ensures g in PassthroughGpus(roles, gpus) <==>
      exists i, k ::
        0 <= i < |roles| && roles[i].role == Passthrough && FoundAt(gpus, roles[i].pciSlot, k) && gpus[k] == g
  {
    hide FindGpu, FoundAt;
    if roles != [] {
      PassthroughGpuIff(roles[1..], gpus, g);
      FindGpuIff(gpus, roles[0].pciSlot, g);
    }
  }

  // ----- the mode the roles imply -----

  ghost predicate Implies(roles: seq<GpuRoleAssignment>, gpus: seq<GpuInfo>, mode: GpuPassthroughMode) {
    match mode
    case MultiGpu => TwoWith(roles, Passthrough)
    case SingleGpu => (exists i :: OnlyAt(roles, Passthrough, i)) && NoneWith(roles, Host)
    case IgpuHost =>
      (exists i :: OnlyAt(roles, Passthrough, i))
      && exists g :: IsSoleGpu(roles, gpus, Host, g) && g.gpuType == Integrated
    case DualGpu =>
      (exists i :: OnlyAt(roles, Passthrough, i))
      && exists g :: IsSoleGpu(roles, gpus, Host, g) && g.gpuType != Integrated
  }

  /** The mode derived from any role list, by the counts of its roles and the kind of the host's GPU. */
  lemma DerivedModeIff(roles: seq<GpuRoleAssignment>, gpus: seq<GpuInfo>, mode: GpuPassthroughMode)
    ensures DerivedMode(roles, gpus) == Some(mode) <==> Implies(roles, gpus, mode)
  {
    hide WithRole, SoleGpu, IsSoleGpu, TwoWith, NoneWith, OnlyAt;
    HowMany(roles, Passthrough);
    HowMany(roles, Host);
    SolePassthrough(roles);
    SoleHost(roles, gpus);
    forall g ensures SoleGpu(roles, gpus, Host) == Some(g) <==> IsSoleGpu(roles, gpus, Host, g) {
      SoleGpuIff(roles, gpus, Host, g);
    }
    var host := SoleGpu(roles, gpus, Host);
    if host.Some? {
      assert IsSoleGpu(roles, gpus, Host, host.value);
    }
  }

  lemma SolePassthrough(roles: seq<GpuRoleAssignment>)
    ensures |WithRole(roles, Passthrough)| == 1 <==> exists i :: OnlyAt(roles, Passthrough, i)
  {
    hide WithRole, OnlyAt;
    HowMany(roles, Passthrough);
  }

  lemma SoleHost(roles: seq<GpuRoleAssignment>, gpus: seq<GpuInfo>)
    ensures SoleGpu(roles, gpus, Host).Some? ==> |WithRole(roles, Host)| == 1
  {
    hide WithRole, FindGpu;
  }

  // ----- counting issues -----

  /** How many indices below `n` satisfy `p`. */
  ghost function Count(n: nat, p: int -> bool): nat {
    if n == 0 then 0 else Count(n - 1, p) + if p(n - 1) then 1 else 0
  }

  ghost predicate Repeats(roles: seq<GpuRoleAssignment>, i: int) {
    0 <= i < |roles| && exists j | 0 <= j < i :: roles[j].pciSlot == roles[i].pciSlot
  }

  ghost predicate Unknown(roles: seq<GpuRoleAssignment>, gpus: seq<GpuInfo>, i: int) {
    0 <= i < |roles| && forall g | g in gpus :: g.pciSlot != roles[i].pciSlot
  }

  ghost predicate Unassigned(roles: seq<GpuRoleAssignment>, gpus: seq<GpuInfo>, i: int) {
    0 <= i < |gpus| && forall r | r in roles :: r.pciSlot != gpus[i].pciSlot
  }

  /** Assignment `i` has the role, and the first GPU with its slot is not as it should be. */
  ghost predicate Faulty(
    roles: seq<GpuRoleAssignment>, gpus: seq<GpuInfo>, role: GpuRole, bad: GpuInfo -> bool, i: int)
  {
    0 <= i < |roles| && roles[i].role == role && exists k :: FoundAt(gpus, roles[i].pciSlot, k) && bad(gpus[k])
  }

  lemma CountSame(n: nat, p: int -> bool, q: int -> bool)
    requires forall i | 0 <= i < n :: p(i) == q(i)
    ensures Count(n, p) == Count(n, q)
  {
    if n > 0 {
      CountSame(n - 1, p, q);
    }
  }

  lemma SlotCounts(roles: seq<GpuRoleAssignment>, gpus: seq<GpuInfo>)
    ensures var found := multiset(SlotIssues(roles, gpus));
      && found[Issue(GpuRoleDuplicate, Error)] == Count(|roles|, i => Repeats(roles, i))
      && found[Issue(GpuRoleSlotUnknown, Error)] == Count(|roles|, i => Unknown(roles, gpus, i))
    ensures forall issue | issue in SlotIssues(roles, gpus) ::
      issue.id in {GpuRoleDuplicate, GpuRoleSlotUnknown} && issue.severity == Error
  {
    if roles != [] {
      var n := |roles| - 1;
      var front := roles[..n];
      SlotCounts(front, gpus);
      SlotCauses(roles, gpus);
      hide Assigned, Detected, Repeats, Unknown, SlotIssues;
      SlotSnoc(roles, gpus);
      SlotStep(SlotIssues(front, gpus), Repeats(roles, n), Unknown(roles, gpus, n));
      CountSame(n, i => Repeats(front, i), i => Repeats(roles, i));
      CountSame(n, i => Unknown(front, gpus, i), i => Unknown(roles, gpus, i));
    } else {
      hide Repeats, Unknown;
    }
  }

  lemma SlotStep(before: seq<Issue>, repeats: bool, unknown: bool)
    ensures var more := (if repeats then [Issue(GpuRoleDuplicate, Error)] else [])
        + if unknown then [Issue(GpuRoleSlotUnknown, Error)] else [];
      && multiset(before + more)[Issue(GpuRoleDuplicate, Error)] ==
           multiset(before)[Issue(GpuRoleDuplicate, Error)] + (if repeats then 1 else 0)
      && multiset(before + more)[Issue(GpuRoleSlotUnknown, Error)] ==
           multiset(before)[Issue(GpuRoleSlotUnknown, Error)] + (if unknown then 1 else 0)
      && forall issue | issue in before + more ::
           issue in before || issue == Issue(GpuRoleDuplicate, Error) || issue == Issue(GpuRoleSlotUnknown, Error)
  {
  }

  lemma SlotSnoc(roles: seq<GpuRoleAssignment>, gpus: seq<GpuInfo>)
    requires roles != []
    ensures var n := |roles| - 1;
      SlotIssues(roles, gpus) == SlotIssues(roles[..n], gpus)
        + ((if Assigned(roles[..n], roles[n].pciSlot) then [Issue(GpuRoleDuplicate, Error)] else [])
           + if Detected(gpus, roles[n].pciSlot) then [] else [Issue(GpuRoleSlotUnknown, Error)])
  {
    hide Assigned, Detected;
  }

  lemma SlotCauses(roles: seq<GpuRoleAssignment>, gpus: seq<GpuInfo>)
    requires roles != []
    ensures var n := |roles| - 1; var front := roles[..n];
      && (Assigned(front, roles[n].pciSlot) <==> Repeats(roles, n))
      && (Detected(gpus, roles[n].pciSlot) <==> !Unknown(roles, gpus, n))
      && forall i | 0 <= i < n ::
           Repeats(front, i) == Repeats(roles, i) && Unknown(front, gpus, i) == Unknown(roles, gpus, i)
  {
    var n := |roles| - 1;
    var front := roles[..n];
    if Assigned(front, roles[n].pciSlot) {
      var r :| r in front && r.pciSlot == roles[n].pciSlot;
      var j :| 0 <= j < n && front[j] == r;
      assert roles[j] == r;
    }
    if Repeats(roles, n) {
      var j :| 0 <= j < n && roles[j].pciSlot == roles[n].pciSlot;
      assert front[j] == roles[j] && front[j] in front;
    }
    forall i | 0 <= i < n ensures Repeats(front, i) == Repeats(roles, i) {
      assert forall j | 0 <= j < n :: front[j] == roles[j];
    }
  }

  lemma MissingCounts(roles: seq<GpuRoleAssignment>, gpus: seq<GpuInfo>)
    ensures multiset(MissingIssues(roles, gpus))[Issue(GpuRoleMissing, Error)] ==
      Count(|gpus|, i => Unassigned(roles, gpus, i))
    ensures forall issue | issue in MissingIssues(roles, gpus) :: issue == Issue(GpuRoleMissing, Error)
  {
    if gpus != [] {
      var n := |gpus| - 1;
      var front := gpus[..n];
      MissingCounts(roles, front);
      MissingCauses(roles, gpus);
      hide Assigned, Unassigned;
      CountSame(n, i => Unassigned(roles, front, i), i => Unassigned(roles, gpus, i));
    }
  }

  lemma MissingCauses(roles: seq<GpuRoleAssignment>, gpus: seq<GpuInfo>)
    requires gpus != []
    ensures var n := |gpus| - 1;
      && (Assigned(roles, gpus[n].pciSlot) <==> !Unassigned(roles, gpus, n))
      && forall i | 0 <= i < n :: Unassigned(roles, gpus[..n], i) == Unassigned(roles, gpus, i)
  {
  }

  lemma DeviceSnoc(
    chosen: seq<GpuRoleAssignment>, last: GpuRoleAssignment, gpus: seq<GpuInfo>, bad: GpuInfo -> bool, issue: Issue)
    ensures DeviceIssues(chosen + [last], gpus, bad, issue) ==
      DeviceIssues(chosen, gpus, bad, issue)
      + if FindGpu(gpus, last.pciSlot).Some? && bad(FindGpu(gpus, last.pciSlot).value) then [issue] else []
  {
    assert (chosen + [last])[..|chosen|] == chosen;
  }

  lemma FoundIff(gpus: seq<GpuInfo>, slot: string, bad: GpuInfo -> bool)
    ensures FindGpu(gpus, slot).Some? && bad(FindGpu(gpus, slot).value) <==>
      exists k :: FoundAt(gpus, slot, k) && bad(gpus[k])
  {
    hide FindGpu;
    if FindGpu(gpus, slot).Some? {
      FindGpuIff(gpus, slot, FindGpu(gpus, slot).value);
    }
    forall k | FoundAt(gpus, slot, k) && bad(gpus[k]) ensures FindGpu(gpus, slot) == Some(gpus[k]) {
      FindGpuIff(gpus, slot, gpus[k]);
    }
  }

  lemma DeviceCounts(
    roles: seq<GpuRoleAssignment>, gpus: seq<GpuInfo>, role: GpuRole, bad: GpuInfo -> bool, issue: Issue)
    ensures multiset(DeviceIssues(WithRole(roles, role), gpus, bad, issue))[issue] ==
      Count(|roles|, i => Faulty(roles, gpus, role, bad, i))
    ensures forall other | other in DeviceIssues(WithRole(roles, role), gpus, bad, issue) :: other == issue
  {
    hide WithRole, FindGpu, FoundAt, DeviceIssues, Faulty;
    if roles == [] {
      NoDevices(gpus, role, bad, issue);
    } else {
      var n := |roles| - 1;
      var front, last := roles[..n], roles[n];
      DeviceCounts(front, gpus, role, bad, issue);
      FaultyCauses(roles, gpus, role, bad);
      assert roles == front + [last];
      WithRoleSnoc(front, last, role);
      DeviceSnoc(WithRole(front, role), last, gpus, bad, issue);
      assert WithRole(front, role) + [] == WithRole(front, role);
      CountSame(n, i => Faulty(front, gpus, role, bad, i), i => Faulty(roles, gpus, role, bad, i));
    }
  }

  lemma FaultyCauses(roles: seq<GpuRoleAssignment>, gpus: seq<GpuInfo>, role: GpuRole, bad: GpuInfo -> bool)
    requires roles != []
    ensures var n := |roles| - 1; var found := FindGpu(gpus, roles[n].pciSlot);
      && (Faulty(roles, gpus, role, bad, n) <==> roles[n].role == role && found.Some? && bad(found.value))
      && forall i | 0 <= i < n :: Faulty(roles[..n], gpus, role, bad, i) == Faulty(roles, gpus, role, bad, i)
  {
    hide FindGpu;
    FoundIff(gpus, roles[|roles| - 1].pciSlot, bad);
  }

  lemma NoDevices(gpus: seq<GpuInfo>, role: GpuRole, bad: GpuInfo -> bool, issue: Issue)
    ensures DeviceIssues(WithRole([], role), gpus, bad, issue) == []
  {
  }

  // ----- the issues of any role list -----

  function RightSeverity(id: IssueId): Severity {
    if id == SingleGpuRiskAcknowledged then Warning else Error
  }

  /** How often a check has cause to complain. */
  ghost function Causes(
    gpus: seq<GpuInfo>, stated: GpuPassthroughMode, roles: seq<GpuRoleAssignment>, id: IssueId): nat
  {
    if roles == [] then
      if id == GpuRolesEmpty then 1 else 0
    else
      match id
      case GpuRolesEmpty => 0
      case GpuRoleDuplicate => Count(|roles|, i => Repeats(roles, i))
      case GpuRoleSlotUnknown => Count(|roles|, i => Unknown(roles, gpus, i))
      case GpuRoleMissing =>
        Count(|gpus|, i => Unassigned(roles, gpus, i)) + if NoneWith(roles, Passthrough) then 1 else 0
      case PassthroughGpuNotIsolated =>
        Count(|roles|, i => Faulty(roles, gpus, Passthrough, (g: GpuInfo) => !g.iommuIsolated, i))
      case HostGpuPassthroughBound =>
        Count(|roles|, i => Faulty(roles, gpus, Host, (g: GpuInfo) => g.currentDriver == Some("vfio-pci"), i))
      case GpuModeMismatch => if exists mode :: Implies(roles, gpus, mode) && mode != stated then 1 else 0
      case SingleGpuRiskAcknowledged => if Implies(roles, gpus, SingleGpu) then 1 else 0
      case MultiGpuNotImplemented => if Implies(roles, gpus, MultiGpu) then 1 else 0
  }

  /**
   * The issues of any role list, each as often as there is cause for it: a slot assigned before, a
   * slot without a GPU, a GPU without a role (and one more when no role is Passthrough), a
   * passthrough GPU that is not isolated, a host GPU bound to vfio-pci, and what the implied mode has
   * against it. Only the single-GPU notice is a warning, and an empty list has one issue of its own.
   */
  lemma RoleIssuesCount(gpus: seq<GpuInfo>, stated: GpuPassthroughMode, roles: seq<GpuRoleAssignment>, x: Issue)
    ensures multiset(RoleIssues(gpus, stated, roles))[x] ==
      if x.severity == (if x.id == SingleGpuRiskAcknowledged then Warning else Error) then
        Causes(gpus, stated, roles, x.id)
      else 0
  {
    if roles != [] {
      hide SlotIssues, MissingIssues, DeviceIssues, ModeIssues, DerivedMode, WithRole, RoleIssues, Causes, PartTotal;
      hide IssueKinds;
      IssueParts(gpus, stated, roles);
      AllParts(gpus, stated, roles);
      PartCount(
        SlotIssues(roles, gpus), MissingIssues(roles, gpus), NoPassthrough(roles),
        DeviceIssues(WithRole(roles, Passthrough), gpus, NotIsolated, Issue(PassthroughGpuNotIsolated, Error)),
        DeviceIssues(WithRole(roles, Host), gpus, BoundToVfio, Issue(HostGpuPassthroughBound, Error)),
        ModeIssues(stated, DerivedMode(roles, gpus)), x);
      CountsPerPart(gpus, stated, roles, x);
    }
  }

  ghost function NoPassthrough(roles: seq<GpuRoleAssignment>): seq<Issue> {
    if WithRole(roles, Passthrough) == [] then [Issue(GpuRoleMissing, Error)] else []
  }

  lemma IssueParts(gpus: seq<GpuInfo>, stated: GpuPassthroughMode, roles: seq<GpuRoleAssignment>)
    requires roles != []
    ensures RoleIssues(gpus, stated, roles) ==
      SlotIssues(roles, gpus) + MissingIssues(roles, gpus)
      + NoPassthrough(roles)
      + DeviceIssues(WithRole(roles, Passthrough), gpus, NotIsolated, Issue(PassthroughGpuNotIsolated, Error))
      + DeviceIssues(WithRole(roles, Host), gpus, BoundToVfio, Issue(HostGpuPassthroughBound, Error))
      + ModeIssues(stated, DerivedMode(roles, gpus))
  {
  }

  lemma AllParts(gpus: seq<GpuInfo>, stated: GpuPassthroughMode, roles: seq<GpuRoleAssignment>)
    ensures IssueKinds(
      SlotIssues(roles, gpus), MissingIssues(roles, gpus), NoPassthrough(roles),
      DeviceIssues(WithRole(roles, Passthrough), gpus, NotIsolated, Issue(PassthroughGpuNotIsolated, Error)),
      DeviceIssues(WithRole(roles, Host), gpus, BoundToVfio, Issue(HostGpuPassthroughBound, Error)),
      ModeIssues(stated, DerivedMode(roles, gpus)))
  {
    hide SlotIssues, MissingIssues, DeviceIssues, DerivedMode, WithRole, Count;
    SlotCounts(roles, gpus);
    MissingCounts(roles, gpus);
    DeviceCounts(roles, gpus, Passthrough, NotIsolated, Issue(PassthroughGpuNotIsolated, Error));
    DeviceCounts(roles, gpus, Host, BoundToVfio, Issue(HostGpuPassthroughBound, Error));
  }

  lemma CountsPerPart(gpus: seq<GpuInfo>, stated: GpuPassthroughMode, roles: seq<GpuRoleAssignment>, x: Issue)
    requires roles != []
    ensures PartTotal(
        SlotIssues(roles, gpus), MissingIssues(roles, gpus), NoPassthrough(roles),
        DeviceIssues(WithRole(roles, Passthrough), gpus, NotIsolated, Issue(PassthroughGpuNotIsolated, Error)),
        DeviceIssues(WithRole(roles, Host), gpus, BoundToVfio, Issue(HostGpuPassthroughBound, Error)),
        ModeIssues(stated, DerivedMode(roles, gpus)), x) ==
      if x.severity == RightSeverity(x.id) then Causes(gpus, stated, roles, x.id) else 0
  {
    hide SlotIssues, MissingIssues, DeviceIssues, ModeIssues, DerivedMode, WithRole, Count, Implies, NoneWith;
    match x.id
    case GpuRoleDuplicate => SlotCounts(roles, gpus);
    case GpuRoleSlotUnknown => SlotCounts(roles, gpus);
    case GpuRoleMissing =>
      MissingCounts(roles, gpus);
      HowMany(roles, Passthrough);
    case PassthroughGpuNotIsolated =>
      DeviceCounts(roles, gpus, Passthrough, NotIsolated, Issue(PassthroughGpuNotIsolated, Error));
      LiteralFaults(roles, gpus);
    case HostGpuPassthroughBound =>
      DeviceCounts(roles, gpus, Host, BoundToVfio, Issue(HostGpuPassthroughBound, Error));
      LiteralFaults(roles, gpus);
    case GpuRolesEmpty =>
    case _ => ModeCounts(roles, gpus, stated);
  }

  lemma LiteralFaults(roles: seq<GpuRoleAssignment>, gpus: seq<GpuInfo>)
    ensures Count(|roles|, i => Faulty(roles, gpus, Passthrough, NotIsolated, i)) ==
      Count(|roles|, i => Faulty(roles, gpus, Passthrough, (g: GpuInfo) => !g.iommuIsolated, i))
    ensures Count(|roles|, i => Faulty(roles, gpus, Host, BoundToVfio, i)) ==
      Count(|roles|, i => Faulty(roles, gpus, Host, (g: GpuInfo) => g.currentDriver == Some("vfio-pci"), i))
  {
    hide FoundAt;
    CountSame(|roles|, i => Faulty(roles, gpus, Passthrough, NotIsolated, i),
              i => Faulty(roles, gpus, Passthrough, (g: GpuInfo) => !g.iommuIsolated, i));
    CountSame(|roles|, i => Faulty(roles, gpus, Host, BoundToVfio, i),
              i => Faulty(roles, gpus, Host, (g: GpuInfo) => g.currentDriver == Some("vfio-pci"), i));
  }

  /** Each kind of issue comes from one part of the list only, but for the missing role. */
  lemma PartCount(
    slots: seq<Issue>, missing: seq<Issue>, none: seq<Issue>, isolation: seq<Issue>, binding: seq<Issue>,
    mode: seq<Issue>, x: Issue)
    requires IssueKinds(slots, missing, none, isolation, binding, mode)
    ensures multiset(slots + missing + none + isolation + binding + mode)[x] ==
      PartTotal(slots, missing, none, isolation, binding, mode, x)
  {
    SumCount(slots, missing, none, isolation, binding, mode, x);
  }

  ghost predicate IssueKinds(
    slots: seq<Issue>, missing: seq<Issue>, none: seq<Issue>, isolation: seq<Issue>, binding: seq<Issue>,
    mode: seq<Issue>)
  {
    && (forall i | i in slots :: i.id in {GpuRoleDuplicate, GpuRoleSlotUnknown} && i.severity == Error)
    && (forall i | i in missing :: i == Issue(GpuRoleMissing, Error))
    && (forall i | i in none :: i == Issue(GpuRoleMissing, Error))
    && (forall i | i in isolation :: i == Issue(PassthroughGpuNotIsolated, Error))
    && (forall i | i in binding :: i == Issue(HostGpuPassthroughBound, Error))
    && (forall i | i in mode :: ModeIssue(i))
  }

  ghost function PartTotal(
    slots: seq<Issue>, missing: seq<Issue>, none: seq<Issue>, isolation: seq<Issue>, binding: seq<Issue>,
    mode: seq<Issue>, x: Issue): nat
  {
    if x.severity != RightSeverity(x.id) then 0
    else
      match x.id
      case GpuRoleMissing => multiset(missing)[x] + multiset(none)[x]
      case PassthroughGpuNotIsolated => multiset(isolation)[x]
      case HostGpuPassthroughBound => multiset(binding)[x]
      case GpuRoleDuplicate => multiset(slots)[x]
      case GpuRoleSlotUnknown => multiset(slots)[x]
      case GpuRolesEmpty => 0
      case _ => multiset(mode)[x]
  }

  ghost predicate ModeIssue(i: Issue) {
    || i == Issue(GpuModeMismatch, Error)
    || i == Issue(SingleGpuRiskAcknowledged, Warning)
    || i == Issue(MultiGpuNotImplemented, Error)
  }

  ghost function CountIn(s: seq<Issue>, x: Issue): (n: nat)
    ensures n == multiset(s)[x]
  {
    assert x in multiset(s) <==> x in s;
    if x in s then multiset(s)[x] else 0
  }

  lemma SumCount(
    a: seq<Issue>, b: seq<Issue>, c: seq<Issue>, d: seq<Issue>, e: seq<Issue>, f: seq<Issue>, x: Issue)
    ensures multiset(a + b + c + d + e + f)[x] ==
      CountIn(a, x) + CountIn(b, x) + CountIn(c, x) + CountIn(d, x) + CountIn(e, x) + CountIn(f, x)
  {
    assert multiset(a + b + c + d + e + f) ==
      multiset(a) + multiset(b) + multiset(c) + multiset(d) + multiset(e) + multiset(f);
  }

  lemma ModeCounts(roles: seq<GpuRoleAssignment>, gpus: seq<GpuInfo>, stated: GpuPassthroughMode)
    ensures var issues := multiset(ModeIssues(stated, DerivedMode(roles, gpus)));
      && issues[Issue(GpuModeMismatch, Error)] ==
           (if exists mode :: Implies(roles, gpus, mode) && mode != stated then 1 else 0)
      && issues[Issue(SingleGpuRiskAcknowledged, Warning)] == (if Implies(roles, gpus, SingleGpu) then 1 else 0)
      && issues[Issue(MultiGpuNotImplemented, Error)] == (if Implies(roles, gpus, MultiGpu) then 1 else 0)
  {
    hide DerivedMode, Implies, ModeIssues;
    var derived := DerivedMode(roles, gpus);
    forall mode ensures derived == Some(mode) <==> Implies(roles, gpus, mode) {
      DerivedModeIff(roles, gpus, mode);
    }
    ModeIssueCounts(stated, derived);
    if derived.Some? {
      assert Implies(roles, gpus, derived.value);
    }
  }

  lemma ModeIssueCounts(stated: GpuPassthroughMode, derived: Option<GpuPassthroughMode>)
    ensures var issues := multiset(ModeIssues(stated, derived));
      && issues[Issue(GpuModeMismatch, Error)] == (if derived.Some? && derived.value != stated then 1 else 0)
      && issues[Issue(SingleGpuRiskAcknowledged, Warning)] == (if derived == Some(SingleGpu) then 1 else 0)
      && issues[Issue(MultiGpuNotImplemented, Error)] == (if derived == Some(MultiGpu) then 1 else 0)
  {
  }

  // ----- the recommendation -----

  /** The first GPU of a kind. */
  ghost predicate FirstOf(gpus: seq<GpuInfo>, good: GpuInfo -> bool, k: int) {
    0 <= k < |gpus| && good(gpus[k]) && forall j | 0 <= j < k :: !good(gpus[j])
  }

  /**
   * A single GPU is passed through. With an integrated and a discrete GPU the first integrated one
   * stays, and the first discrete one that is isolated goes, or the first discrete one if none is.
   * Otherwise the GPU that goes has the best rank, and the boot GPU stays if another one goes.
   */
  ghost predicate Recommended(gpus: seq<GpuInfo>, mode: GpuPassthroughMode, h: int, p: int) {
    && 0 <= p < |gpus|
    && if |gpus| == 1 then
         mode == SingleGpu && h == -1
       else if (exists g | g in gpus :: g.gpuType == Integrated) && (exists g | g in gpus :: g.gpuType == Discrete) then
         && mode == IgpuHost
         && FirstOf(gpus, (g: GpuInfo) => g.gpuType == Integrated, h)
         && if exists g | g in gpus :: g.gpuType == Discrete && g.iommuIsolated then
              FirstOf(gpus, (g: GpuInfo) => g.gpuType == Discrete && g.iommuIsolated, p)
            else
              FirstOf(gpus, (g: GpuInfo) => g.gpuType == Discrete, p)
       else
         mode == DualGpu && PassesAt(gpus, p) && 0 <= h && HostsAt(gpus, p, h)
  }

  lemma ChosenAt(gpus: seq<GpuInfo>) returns (h: int, p: int)
    requires gpus != [] && DistinctSlots(gpus)
    ensures var c := Choose(gpus);
      && Recommended(gpus, c.mode, h, p) && c.pass == gpus[p] && h != p && h < |gpus|
      && (if |gpus| == 1 then c.host == None else 0 <= h && c.host == Some(gpus[h]))
  {
    if |gpus| == 1 {
      h, p := -1, 0;
    } else {
      var discrete, isolated := (g: GpuInfo) => g.gpuType == Discrete,
        (g: GpuInfo) => g.gpuType == Discrete && g.iommuIsolated;
      var igpu, dgpu := IntegratedGpu(gpus), CandidateDiscrete(gpus);
      if igpu.Some? && dgpu.Some? {
        h := FirstIndex(gpus, (g: GpuInfo) => g.gpuType == Integrated);
        if FirstWhere(gpus, isolated).Some? {
          p := FirstIndex(gpus, isolated);
        } else {
          p := FirstIndex(gpus, discrete);
        }
        assert gpus[h] in gpus && gpus[p] in gpus;
      } else {
        p := PassCandidateAt(gpus);
        h := HostCandidateAt(gpus, p);
      }
    }
  }

  /** The roles recommended, GPU by GPU. */
  lemma RecommendationIs(gpus: seq<GpuInfo>) returns (h: int, p: int)
    requires gpus != [] && DistinctSlots(gpus)
    ensures Recommended(gpus, Choose(gpus).mode, h, p)
    ensures var roles := RolesFor(gpus, Choose(gpus));
      && |roles| == |gpus|
      && forall i | 0 <= i < |gpus| ::
           && roles[i].pciSlot == gpus[i].pciSlot
           && roles[i].role == if i == h then Host else if i == p then Passthrough else Ignored
  {
    hide Choose, Recommended;
    h, p := ChosenAt(gpus);
    assert 0 <= p < |gpus| by {
      InRange(gpus, Choose(gpus).mode, h, p);
    }
    assert forall i, j | 0 <= i < |gpus| && 0 <= j < |gpus| && i != j :: gpus[i].pciSlot != gpus[j].pciSlot;
  }

  lemma InRange(gpus: seq<GpuInfo>, mode: GpuPassthroughMode, h: int, p: int)
    requires Recommended(gpus, mode, h, p)
    ensures 0 <= p < |gpus| && (|gpus| == 1 ==> h == -1)
  {
  }
}
