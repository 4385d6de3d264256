/** What the plan-time check of the display manager says about the hook step after the reboot. */
module HookPlan {
  import opened Wrappers
  import opened Records
  import opened GpuRoles
  import opened KernelParams
  import opened Planner
  import opened PhaseBInstall

  datatype HandoffIssue = RequiresSingleGpu | RequiresKnownDisplayManager

  predicate Managed(manager: DisplayManager) {
    manager != NoDisplayManager && manager != UnknownDisplayManager
  }

  /** The hand-off part of the monitor check: it looks at the display manager for hook hand-off only. */
  method CheckHandoff(profile: SystemProfile, config: PassthroughConfig) returns (issues: seq<HandoffIssue>)
    ensures issues == [] <==> HandoffAccepted(profile, config)
    ensures RequiresSingleGpu in issues <==>
      config.monitorPlan == OneMonitor(HookHandoff) && DerivedMode(config.gpuRoles, profile.gpus) != Some(SingleGpu)
    ensures RequiresKnownDisplayManager in issues <==>
      && config.monitorPlan == OneMonitor(HookHandoff)
      && (profile.displayManager == UnknownDisplayManager || profile.displayManager == NoDisplayManager)
    ensures |issues| == 2 ==> issues == [RequiresSingleGpu, RequiresKnownDisplayManager]
    ensures |issues| <= 2
  {
    issues := [];
    if config.monitorPlan == OneMonitor(HookHandoff) {
      if DerivedMode(config.gpuRoles, profile.gpus) != Some(SingleGpu) {
        issues := issues + [RequiresSingleGpu];
      }
      if profile.displayManager == UnknownDisplayManager || profile.displayManager == NoDisplayManager {
        issues := issues + [RequiresKnownDisplayManager];
      }
    }
  }

  predicate HandoffAccepted(profile: SystemProfile, config: PassthroughConfig) {
    config.monitorPlan == OneMonitor(HookHandoff) ==>
      DerivedMode(config.gpuRoles, profile.gpus) == Some(SingleGpu) && Managed(profile.displayManager)
  }

  /**
   * For an accepted plan that installs hooks, the scripts can be generated exactly when the display manager is
   * managed.
   */
  lemma AcceptedHooksGenerateIff(profile: SystemProfile, config: PassthroughConfig)
    requires HandoffAccepted(profile, config) && WantsHooks(profile, config)
    requires Context(profile, config).Some? && AllVendorDeviceIds(Context(profile, config).value.vfioPciIds)
    ensures Scriptable(Context(profile, config).value) <==> Managed(profile.displayManager)
    ensures config.monitorPlan == OneMonitor(HookHandoff) ==> Scriptable(Context(profile, config).value)
    ensures DerivedMode(config.gpuRoles, profile.gpus) == Some(SingleGpu)
  {
    match PrimaryPassthroughGpu(config, profile)
    case Some(gpu) => assert Context(profile, config).value.displayManager == profile.displayManager;
  }

  /**
   * Acceptance alone promises nothing: a lone passthrough GPU, no hand-off and no display manager pass the check
   * and fail here.
   */
  lemma AcceptedHooksFailFor(gpu: GpuInfo, profile: SystemProfile, config: PassthroughConfig)
    requires profile.gpus == [gpu] && profile.displayManager == NoDisplayManager
    requires config.gpuRoles == [GpuRoleAssignment(gpu.pciSlot, Passthrough)] &&
      config.monitorPlan == OneMonitor(SwitchInputs)
    ensures HandoffAccepted(profile, config) && WantsHooks(profile, config)
    ensures Context(profile, config).Some? && !Scriptable(Context(profile, config).value)
  {
    assert WithRole(config.gpuRoles[1..], Passthrough) == [];
    assert WithRole(config.gpuRoles, Passthrough) == config.gpuRoles;
    assert WithRole(config.gpuRoles, Host) == [];
  }
}
