/** What the planner's own Phase-B steps amount to when they run. */
module PlannedRun {
  import opened Paths
  import opened Records
  import opened HostWrites
  import opened Planner
  import opened PhaseBInstall
  import opened PhaseB

  function HookPart(job: Job, host: SystemProfile): seq<Write> {
    if WantsHooks(host, job.Config()) then StepWrites(job, SingleGpuHookStep(job.Config())) else []
  }

  /** The writes of a planned Phase B: the hook scripts if wanted, the XML, the disk image if asked for. */
  lemma PlannedWrites(job: Job, home: Path, host: SystemProfile)
    ensures AllWrites(job, PhaseBPart(home, host, job.Config())) ==
      HookPart(job, host) + StepWrites(job, VmXmlStep(home, job.Config()))
      + StepWrites(job, VmRegisterStep(job.Config()))
  {
    hide StepWrites, WantsHooks, SingleGpuHookStep, VmXmlStep, VmRegisterStep, VerifyStep, AllWrites, LookingGlassStep;
    var config := job.Config();
    var hooks := if WantsHooks(host, config) then [SingleGpuHookStep(config)] else [];
    var glass := if config.lookingGlassEnabled then [LookingGlassStep()] else [];
    var a := hooks + glass;
    AllWritesAppend(job, hooks, glass);
    GlassWritesNothing(job);
    OneStep(job, SingleGpuHookStep(config));
    NoSteps(job);
    assert AllWrites(job, a) == HookPart(job, host) by {
      assert HookPart(job, host) + [] == HookPart(job, host);
    }
    AllWritesSnoc(job, a, VmXmlStep(home, config));
    AllWritesSnoc(job, a + [VmXmlStep(home, config)], VmRegisterStep(config));
    AllWritesSnoc(job, a + [VmXmlStep(home, config)] + [VmRegisterStep(config)], VerifyStep());
    VerifyWritesNothing(job);
    assert PhaseBPart(home, host, config) == a + [VmXmlStep(home, config)] + [VmRegisterStep(config)] + [VerifyStep()];
  }

  lemma NoSteps(job: Job)
    ensures AllWrites(job, []) == []
  {
  }

  lemma OneStep(job: Job, step: PlannedStep)
    ensures AllWrites(job, [step]) == StepWrites(job, step)
  {
    hide StepWrites;
    assert [] + [step] == [step];
    AllWritesSnoc(job, [], step);
  }

  lemma GlassWritesNothing(job: Job)
    ensures AllWrites(job, [LookingGlassStep()]) == []
  {
    OneStep(job, LookingGlassStep());
  }

  lemma VerifyWritesNothing(job: Job)
    ensures StepWrites(job, VerifyStep()) == []
  {
  }

  lemma AllWritesAppend(job: Job, a: seq<PlannedStep>, b: seq<PlannedStep>)
    ensures AllWrites(job, a + b) == AllWrites(job, a) + AllWrites(job, b)
  {
    hide StepWrites, AllWrites;
    if b == [] {
      NoSteps(job);
      assert a + b == a && AllWrites(job, a) + [] == AllWrites(job, a);
    } else {
      var n := |b| - 1;
      AllWritesAppend(job, a, b[..n]);
      assert a + b == (a + b[..n]) + [b[n]] && b == b[..n] + [b[n]];
      AllWritesSnoc(job, a + b[..n], b[n]);
      AllWritesSnoc(job, b[..n], b[n]);
    }
  }

  /** The XML file never is one of the hook scripts. */
  lemma XmlIsNoHook(home: Path, config: PassthroughConfig)
    ensures VmXmlPath(home, config) !in HookPaths(config)
  {
    var p, h := VmXmlPath(home, config), HookPaths(config);
    var helper := config.vmName + ".d";
    assert helper[|helper| - 1] == 'd' && ".virtu"[5] == 'u';
    assert |p| == |home| + 2 && p[|home|] == ".virtu" && |QEMU_D| == 4;
    assert QEMU_D[3] == "qemu.d" && "qemu.d"[0] != ".virtu"[0];
    assert h[0][3] == QEMU_D[3] && h[1][4] == helper && h[2][4] == helper;
  }

  /** The new disk image, if one is made, is put on no other path this Phase B writes. */
  predicate ImageKeepsOff(job: Job, home: Path, host: SystemProfile) {
    var config := job.Config();
    job.mode.live && config.disk.Create? ==>
      && (WantsHooks(host, config) && Context(job.profile, config).Some? ==> config.disk.path !in HookPaths(config))
      && (job.mode.xml.Some? ==> config.disk.path != VmXmlPath(home, config))
  }

  /**
   * A planned Phase B registers one domain, and it writes every file once exactly if the user keeps
   * the new disk image off the hook scripts and the XML.
   */
  lemma PlannedRunIsPlain(job: Job, home: Path, host: SystemProfile)
    requires job.pending.remainingSteps == PhaseBPart(home, host, job.Config())
    ensures SingleRegister(job.pending.remainingSteps)
    ensures DistinctWrites(AllWrites(job, job.pending.remainingSteps)) <==> ImageKeepsOff(job, home, host)
  {
    hide StepWrites, HookPart, HookPaths, AllWrites, VmXmlPath, WantsHooks, DistinctWrites;
    PlannedWrites(job, home, host);
    XmlIsNoHook(home, job.Config());
    var hooks := HookPart(job, host);
    var xml := StepWrites(job, VmXmlStep(home, job.Config()));
    var disk := StepWrites(job, VmRegisterStep(job.Config()));
    HookPartPaths(job, host);
    SingleWrites(job, home);
    FewAreDistinct(xml);
    DistinctJoin(hooks, xml);
    if disk == [] {
      assert hooks + xml + disk == hooks + xml;
    } else {
      assert disk == [disk[0]];
      DistinctSnoc(hooks + xml, disk[0]);
      ImageMeets(job, home, host, disk[0].path);
    }
  }

  /** Which other writes a path meets. */
  lemma ImageMeets(job: Job, home: Path, host: SystemProfile, p: Path)
    ensures var xml := StepWrites(job, VmXmlStep(home, job.Config()));
      (exists w | w in HookPart(job, host) + xml :: w.path == p) <==>
        || (WantsHooks(host, job.Config()) && Context(job.profile, job.Config()).Some? && p in HookPaths(job.Config()))
        || (job.mode.xml.Some? && p == VmXmlPath(home, job.Config()))
  {
    hide WantsHooks, HookPaths, VmXmlPath;
    var xml := StepWrites(job, VmXmlStep(home, job.Config()));
    var all := HookPart(job, host) + xml;
    if Context(job.profile, job.Config()).Some? {
      WritesOnPaths(job.Config(), Context(job.profile, job.Config()).value);
    }
    if job.mode.xml.Some? {
      assert xml[0] in all && xml[0].path == VmXmlPath(home, job.Config());
    }
    forall w | w in HookPart(job, host) ensures w in all {
    }
  }

  lemma FewAreDistinct(writes: seq<Write>)
    requires |writes| <= 1
    ensures DistinctWrites(writes)
  {
  }

  lemma DistinctSnoc(writes: seq<Write>, w: Write)
    requires DistinctWrites(writes)
    ensures DistinctWrites(writes + [w]) <==> !exists v | v in writes :: v.path == w.path
  {
    var all := writes + [w];
    forall v | v in writes && v.path == w.path ensures !DistinctWrites(all) {
      var i :| 0 <= i < |writes| && writes[i] == v;
      assert all[i].path == all[|writes|].path;
    }
  }

  lemma SingleWrites(job: Job, home: Path)
    ensures var xml := StepWrites(job, VmXmlStep(home, job.Config()));
      |xml| <= 1 && forall w | w in xml :: w.path == VmXmlPath(home, job.Config())
    ensures var disk := StepWrites(job, VmRegisterStep(job.Config()));
      && |disk| <= 1 && (disk != [] <==> job.mode.live && job.Config().disk.Create?)
      && (disk != [] ==> disk[0].path == job.Config().disk.path)
  {
    hide VmXmlPath;
  }

  lemma HookPartPaths(job: Job, host: SystemProfile)
    ensures DistinctWrites(HookPart(job, host)) &&
      forall w | w in HookPart(job, host) :: w.path in HookPaths(job.Config())
  {
    match Context(job.profile, job.Config()) {
      case None =>
      case Some(ctx) =>
        HookWritesAreDistinct(job.Config(), ctx);
        WritesOnPaths(job.Config(), ctx);
    }
  }

  lemma DistinctJoin(a: seq<Write>, b: seq<Write>)
    requires DistinctWrites(a) && DistinctWrites(b) && forall v, w | v in a && w in b :: v.path != w.path
    ensures DistinctWrites(a + b)
  {
    var ab := a + b;
    forall i, j | 0 <= i < j < |ab| ensures ab[i].path != ab[j].path {
      if i < |a| <= j {
        assert ab[i] in a && ab[j] in b;
      }
    }
  }
}
