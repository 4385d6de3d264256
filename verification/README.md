# Virtu: a verified model of its safety protocol

Virtu prepares a Linux host for GPU passthrough. It edits boot-critical files before a reboot
(Phase A), finishes the set-up after it (Phase B), and promises that every edit can be undone.
This project models that protocol and the computations it rests on, and proves what they promise:

* **The snapshot protocol.** The file store is a class that Virtu shares with everyone else. Before
  each of its operations other programs may edit any file of the host, as one oracle decides, and
  each operation may fail, as another does; a process that stops for good is one whose remaining
  operations all fail. A contract over all oracles thus covers every point at which a run can stop and
  every edit made in between. Capture, the checked write, Phase A, Phase B and rollback are methods
  over that store, and every operation is kept on record with the disk it found and the disk it left.
  The relations in their contracts are then used for theorems about whole histories: any number of
  `apply`, `resume` and `rollback` commands, stopped anywhere, with others at work before, between and
  during them (`Runs`), about a planned apply followed by its resume (`PlannedResume`), and about the
  commands themselves as actions of a history (`Invocations`). Specification functions the methods are
  proved against are in turn tied to what a reader of the disk, the plan or the host would see, in terms
  that do not mention them (`PlanContents`, `EditEffects`, `GeneratedFiles`, `Readiness`, and the
  predicates `Remembers`, `Delivered`, `Reported` and `Promised`).
* **The configuration writers.** GRUB, systemd-boot and mkinitcpio are three dialects of one line
  rewriter (`LineView`, `Requoting`, `LineRewriter`); update-initramfs is separate. What a pass means,
  when two passes equal one, when a file settles, and whether a boot finds what was written is proved on
  the characters of the file, for every file a rewrite accepts; which lines are targets and what an edit
  makes of them is also stated on the text of the line (`LineSyntax`).
* **CPU topology**, from the lines of `/proc/cpuinfo` (`CpuBlocks`) to the core map, the pins and the
  cpuset text.
* **Agreement** between planner, executor and verifier on PCI ids and kernel parameters, between the
  recommended GPU roles and the role checks, and between the plan-time and run-time hook checks; and what
  the role checks say of any role list (`RoleChecks`).

How things are represented:

* A file's content is a value: raw text, a manifest, a pending record, or a generated script or disk
  image given by what determines it. Serialization is thus an assumed round trip.
* SHA-256 is a parameter `sha: Contents -> Digest` without any assumption. Where equality of digests
  must imply equality of contents this is a hypothesis about the contents that occur (`NoCollision`).
* Virtu's own changes to files are framed by the record: an operation changes the one path it names, or
  none. What was at a path at the time of a capture is what the capture saw (`seen`), since by the time
  it ends others may have changed it. Exact effects, and success without faults, are stated for runs that
  others leave alone: `Quiet` for the files, directories and domains a run knows, `Idle` for everything.
* What `grub-mkconfig`, `mkinitcpio -P` and the other host commands of
  src/config/writers/commands.rs:127-167 do to the host's files counts as edits by others
  (`Store.FileSystem.RunCommand`). The theorems about what Virtu wrote are about its own operations.
* A path is its list of components. `Roots.Protected` are the paths below `~/.virtu/snapshots` and
  `~/.virtu/state`. A target the user or the detection supplies may not lie there
  (`SuppliedPathsAreHost`); that planned paths never do is proved.
* The XML generator, `bash`, `virt-xml-validate`, `qemu-img` and `virsh` are the oracle's choice of
  success or failure plus an abstract effect. `virsh define` is refused when the domain name is
  taken, since every generated definition carries a fresh uuid
  (src/vm/xml/mod.rs:61-63, src/kb/data/error_patterns.toml:75-87).
* Snapshot ids are fresh names.
* A host booted with a GRUB file has a boot line with the words of the file's assignments, as the writer
  itself reads them; what `grub-mkconfig` does in between is not modelled.

## Where the code and its documentation differ

The model follows the code.

* src/config/writers/grub.rs:9-11 and src/config/writers/systemd_boot.rs:24-25 promise that a second
  run changes nothing. A pass drops one newline from a file that ends in two or more, so a pass returns
  its input exactly under the condition of `LineRewriter.NoOpIff`, and the second pass may drop another
  (`Grub.ThreeNewlinesFile`).
* src/config/writers/grub.rs:124-154 takes an unquoted GRUB value that is a blank and then a quote as
  unquoted, and spaces its words evenly, after which it is a quoted value or none at all (`Requoting`).
  Such a value breaks several promises, each under a condition that can be read off the line before:
  a second pass changes nothing (`LineRewriter.IdempotentIff`, `Grub.BlankThenQuoteFile`,
  `Grub.BlankThenQuoteSettledFile`); a second pass succeeds (`LineRewriter.SettlesIff`,
  `Grub.UnclosedQuoteFile`); the parameters go into the value beside the old words
  (`Grub.RewriteMeaning`); adding twice is adding both (`Grub.RewriteTwice`); and, after the reboot, the
  verifier of src/engine/resume.rs:187-198 finds what was written (`Resume.GrubEditIsVerified`):
  `KEY= "w"` with parameter `p` becomes `KEY="w" p`, and a boot with the word in the quotes lacks `p`
  (`Booting.BlankThenQuoteBoots`).
* src/config/atomic_write.rs:6-8 says that the check of the captured state defends against edits between
  snapshot and write. It defends against those made before its own read of the file
  (src/config/atomic_write.rs:46-53): they stay, and the write is refused (`PhaseA.ChangedIsNotWritten`,
  `PhaseA.ExecutePhaseA`). An edit between that read and the write (line 77) is overwritten: by the
  contract of `AtomicWrite.SnapshotThenWrite` the write goes ahead whatever it then finds at the target.
* src/vm/passthrough.rs:354-356 has the derived mode reveal inconsistencies between the stated mode and
  the roles. The recommendation contradicts itself when no GPU is discrete and the one that stays on the
  host is integrated (`GpuRoles.DerivedModeAgreesIff`), as for two integrated GPUs
  (`GpuRoles.TwoIntegratedGpus`).
* src/vm/validation.rs:434-443 says an unsupported display manager is caught before Phase A. The
  check only looks at plans with hook hand-off, while the planner installs hooks for every
  single-GPU plan (`HookPlan.AcceptedHooksFailFor`, `HookPlan.AcceptedHooksGenerateIff`).
* src/vm/cpu_topology.rs:23-25 shows a host that gets the last two cores only; the code gives the host
  every core the VM does not take (`CpuTopology.CalculatePinning`).
* src/snapshot/mod.rs:232-242 flattens paths without being injective, so a backup can be overwritten by
  another target's; `Capture.CaptureBacksIff` says exactly when a snapshot holds what it should, and
  `Planner.PlannedTargetsCanClash` is a plan for which it does not.
* src/config/writers/commands.rs:14 says `dracut --force`; the code adds `--regenerate-all` (lines 148-150).

## Model

| member | source | states |
|---|---|---|
| Store.FileSystem.WriteAtomic | src/snapshot/fs.rs:256-271 | a write happens entirely or not at all, and needs an existing parent directory |
| Store.FileSystem.CreateDirAll | src/snapshot/fs.rs:304-318 | exactly the path and all its ancestors become directories |
| Store.FileSystem.RemoveFile | src/snapshot/fs.rs:320-333 | an existing file disappears together with its executable mark; anything else is an error that changes nothing |
| Store.FileSystem.SetExecutable | src/snapshot/fs.rs:335-351 | only an existing file can be marked, and nothing else changes |
| Store.FileSystem.RunCommand | src/config/writers/commands.rs:63-99 | a command goes on record whether or not it succeeds; what it does to files counts among the edits of others |
| Paths.SanitizeInjective | src/snapshot/mod.rs:232-242 | flat backup names are distinct for distinct paths without `_`, `:` and `\` |
| Paths.SanitizeCollides | src/snapshot/mod.rs:232-242 | two different paths with the same flat name |
| Paths.JoinedCollides | src/snapshot/mod.rs:232-242 | every clean three-component path shares its flat name with the one-component path joined by underscores |
| Paths.SanitizeTextIs | src/snapshot/mod.rs:232-242 | a flat name has an underscore exactly where the path has `/`, `:` or `\`, and every other character in its place |
| Manifest.ExtendsEntryFor | src/snapshot/manifest.rs:202-220 | a rewrite of a manifest keeps the captured facts of every entry that lookup finds |
| Manifest.RecordedPostEdit | src/snapshot/manifest.rs:104-106 | recording a digest changes the entry of that path only, and coverage not at all |
| Capture.CollectTargets | src/snapshot/mod.rs:149-167 | the targets are the touches of all steps but the snapshot step, first occurrences in plan order |
| Capture.TouchIsTarget | src/snapshot/mod.rs:149-167 | no touch of a mutating step is missed |
| Capture.UniqueMembers | src/snapshot/mod.rs:149-167 | collecting first occurrences loses no path and repeats none |
| Capture.UniqueOrder | src/snapshot/mod.rs:149-167 | and they are first occurrences, in the order of the touches |
| Capture.CapturedEntriesAre | src/snapshot/mod.rs:169-225 | the manifest has one entry for each path that some step besides the snapshot step touches, and no other; each says whether the path was a file, with the digest of what was seen, and the kind of the first step that touches it |
| Capture.CaptureOne | src/snapshot/mod.rs:169-225 | one entry with presence, digest and owner of the target as it was looked at, and a backup of that content exactly when it was there |
| Capture.DeriveRestoreActions | src/snapshot/mod.rs:263-298 | each step gives exactly the actions that follow from it, in plan order: the bootloader step the host's own update command if it has one, the initramfs step the command of its system, the VFIO step a module reload; the reboot hint comes last, exactly if the plan needs one |
| Capture.CaptureWithId | src/snapshot/mod.rs:113-144 | whatever others do meanwhile: mutations stay in the new snapshot directory; there is a manifest on disk only if every entry and backup is, each for what was seen at its target |
| Capture.CleanTargetsDoNotClash | src/snapshot/mod.rs:232-246 | existing targets on clean paths never share a backup |
| Capture.CaptureBacksIff | src/snapshot/mod.rs:113-212 | the snapshot holds what was seen at every target if and only if no two existing targets with different contents share a flat name |
| Layout.RestorableKept | src/snapshot/mod.rs:358-450 | a restorable snapshot stays so under everything that keeps backups and only extends manifests, edits by others at any point included |
| Layout.BacksKept | src/snapshot/mod.rs:358-450 | and it keeps standing for what the capture saw |
| AtomicWrite.SnapshotThenWrite | src/config/atomic_write.rs:32-85 | an uncovered target is refused untouched; a captured file is read first, and if its content differs from the captured one the write is a hash mismatch that leaves the edit; otherwise the write happens exactly if no fault and no missing directory stops it, whatever was edited since the read |
| AtomicWrite.DeclareCreatedEntry | src/config/atomic_write.rs:91-108 | declaring adds an entry only for an unknown path and keeps paths unique |
| AtomicWrite.OneChangingWrite | src/config/atomic_write.rs:41-85 | no lost update: after a content-changing write to a captured file every further write is refused |
| Session.WriteTarget | src/config/atomic_write.rs:32-85 | inside a run a write keeps every snapshot, changes one host file, and only once the manifest on disk covers it; a refused write changes nothing; without faults only a changed content or a missing directory or file stops it |
| Session.PersistManifest | src/engine/executor.rs:412-434 | storing the manifest is atomic, keeps every other record, and only extends what was stored |
| Restore.RestoreEntry | src/snapshot/mod.rs:385-449 | one entry: already restored, rewritten from a verified backup, or removed; after success the file has been as captured at some operation, whatever others do, and the report so far has the entry in the list its treatment earned and all the manifest's actions; a bad backup stops before writing |
| Restore.Rollback | src/snapshot/mod.rs:358-450 | a rollback that stops anywhere has written verified bytes only, and all entries up to where it stopped have been as captured at some point; a success reports the snapshot, the manifest's rollback actions in full, and each path in manifest order as removed, rewritten or left; if nobody interferes, exactly that prefix of the entries is restored, and without faults it completes |
| Restore.RollbackRestoresBase | src/snapshot/mod.rs:358-450 | a full rollback gives each target the presence and digest the capture saw whatever is there now, and its very content unless live and captured content collide |
| Restore.RestoreResumable | src/snapshot/mod.rs:385-449 | rolling back a prefix and then everything equals rolling back once |
| Restore.SecondRollbackIsIdle | src/snapshot/mod.rs:385-449 | an immediate second rollback changes and reports nothing as restored |
| Restore.SummaryPartitions | src/snapshot/mod.rs:385-449 | the three report lists partition the entries, each in manifest order |
| Restore.RollbackKeeps | src/snapshot/mod.rs:358-450 | a rollback leaves every snapshot and the pending record alone |
| Planner.MakePlan | src/engine/planner.rs:152-212 | the steps come in the documented order, and the plan needs a reboot if and only if one of them does; a blocker, or else a validation error (both verdicts are inputs here), leaves no plan |
| Planner.PlanSplits | src/snapshot/pending.rs:117-150 | Phase-A steps followed by Phase-B steps is the plan itself |
| Planner.PhaseBMember | src/snapshot/pending.rs:136-150 | the pending record lists exactly the steps of no Phase-A kind |
| Planner.PlannedTargetsAreHost | src/engine/planner.rs:247-605 | no mutating step of any plan touches Virtu's own records, for every domain name that is one path component, as the names accepted by src/vm/passthrough.rs:647-653 are |
| Planner.PlannedTargetsCanClash | src/snapshot/mod.rs:232-242 | a plan with a disk image at `/etc_default_grub` has targets that share a backup name |
| Planner.BootloaderStateIffVerified | src/engine/planner.rs:285-308 | the bootloader step is already satisfied exactly when the verifier would miss no parameter |
| PlanContents.PlanIs | src/engine/planner.rs:152-212 | every plan, by host and choices alone: which kinds of steps it has, each at most once and in what order, which files each declares, which need a reboot, and which count as done already |
| KernelParams.PlannerPciIds | src/engine/planner.rs:634-661 | the planner's ids are the sorted distinct ids of the passthrough devices |
| KernelParams.ExecutorPciIds | src/engine/executor.rs:474-494 | the executor's ids are the same before sorting |
| KernelParams.PciIdsMembers | src/engine/executor.rs:474-494 | an id is listed if and only if it belongs to a detected passthrough GPU or its audio function |
| KernelParams.PassthroughIdsAre | src/snapshot/pending.rs:81-92 | the ids used everywhere are, in increasing order, exactly those of the first GPU with the slot of some passthrough role, and of the audio function beside it |
| KernelParams.CpuParamByVendor | src/engine/resume.rs:187-191 | `amd_iommu=on` goes to the vendors whose name has the letters a, m, d in a row in either case, `intel_iommu=on` to all others |
| KernelParams.IdsParamReadBack | src/engine/executor.rs:457-472 | the id parameter, split at its equals sign and then at the commas, gives back the key and the ids |
| KernelParams.VendorDeviceIdIs | src/config/writers/vfio_modprobe.rs:68-80 | a well-formed id is four hexadecimal digits, a colon and four more |
| KernelParams.CanonicalIdsCorrect | src/snapshot/pending.rs:81-92 | the sorted list is strictly increasing and loses nothing |
| KernelParams.RequiredKernelParams | src/engine/executor.rs:457-472 | the executor writes exactly the parameters the verifier looks for |
| KernelParams.PlannerAgreesWithVerifier | src/engine/planner.rs:285-308 | the planner's test of the boot line and the verifier's agree on every line |
| KernelParams.RequiredParamsAreClean | src/engine/executor.rs:457-472 | for hexadecimal ids every parameter survives being written and parsed |
| PhaseAEdits.VfioModprobeConf | src/engine/executor.rs:260-293 | the modprobe snippet exists exactly for a non-empty list of well-formed ids; what is in it is stated by `GeneratedFiles.SnippetReadBack` |
| GeneratedFiles.SnippetReadBack | src/config/writers/vfio_modprobe.rs:40-66 | the snippet read back: one line gives vfio-pci its ids, and splitting them at the commas gives exactly the list; each of the six graphics drivers waits for vfio-pci; everything else is the VGA option, comments and blank lines |
| GeneratedFiles.DracutReadBack | src/config/writers/initramfs/dracut.rs:15-23 | the dracut snippet read back: one line adds drivers, and its words are the VFIO modules |
| PhaseAEdits.RunBootloaderStep | src/engine/executor.rs:210-258 | the bootloader file gets the rewrite of what it held, its digest goes into the manifest, and nothing else is written |
| PhaseAEdits.RunVfioStep | src/engine/executor.rs:260-293 | the same for the modprobe file, from the sorted ids |
| PhaseAEdits.RunInitramfsStep | src/engine/executor.rs:295-346 | the same for the initramfs configuration; a modules file that cannot be read counts as empty |
| EditEffects.GrubEffect | src/config/writers/grub.rs:36-132 | every accepted GRUB file ends up with one line that assigns the variable, to words evenly spaced in one kind of quotes or none, and all parameters are among the words |
| EditEffects.SystemdEffect | src/config/writers/systemd_boot.rs:26-81 | every accepted entry ends up with one `options` line, and all parameters are among its words |
| EditEffects.MkinitcpioEffect | src/config/writers/initramfs/mkinitcpio.rs:10-69 | every accepted mkinitcpio file ends up with one `MODULES` array, and the VFIO modules are among its words |
| EditEffects.UpdateInitramfsEffect | src/config/writers/initramfs/update_initramfs.rs:15-59 | every module list keeps its text in front, has a line that names each VFIO module, names no other module it did not name, and has Virtu's comment if a module had to be added |
| EditEffects.WroteSays | src/engine/executor.rs:210-346 | the file each Phase-A step leaves says what the step is for: exactly the devices to pass through, all that the kernel must be asked for, the VFIO modules in the form of the host's initramfs system |
| PhaseA.RunEdits | src/engine/executor.rs:144-170 | the edits run in plan order, skipping Phase-B steps; on a host left alone each is derived from the state at the start; without faults a workable plan stops by a hash mismatch only |
| PhaseA.EditKindsAre | src/engine/executor.rs:144-170 | the completed steps reported are the kinds of the edits, in plan order |
| PhaseA.RunRegenerateCommands | src/engine/executor.rs:353-410 | after a success the command of the host's bootloader has been run if its file was edited, and that of its initramfs system if its files were |
| PhaseA.MakePendingPlan | src/engine/executor.rs:436-452 | the pending record remembers the snapshot, the choices, the host's distribution, bootloader kind, initramfs system and boot line, the ids of the passthrough devices in order, and the steps of no Phase-A kind in plan order |
| PhaseA.ExecuteSnapshotStep | src/engine/executor.rs:40-80 | a plan must start with its snapshot; the manifest used afterwards is the one on disk |
| PhaseA.ExecutePhaseA | src/engine/executor.rs:136-208 | whatever others do and wherever it stops, at every operation: only targets are written and none before the stored manifest covers it, the snapshot holds what was seen, older snapshots are kept; a captured file that others change after the capture keeps their edit and the phase fails, by a hash mismatch if nothing else stands in its way; a pending record appears only on success; without faults and interference a possible plan succeeds |
| PhaseA.ChangedIsNotWritten | src/config/atomic_write.rs:41-62 | at any stop of Phase A, a captured target that no operation has found with its captured content since is not written |
| PhaseBInstall.PlannedStepsAreDeclared | src/engine/planner.rs:438-605 | the paths the executor rebuilds are the ones the planner declared |
| PhaseBInstall.RunVmXmlStep | src/engine/executor.rs:818-892 | the XML is at the path the plan declares, written through the snapshot and the manifest stored; in a live run it has been validated first; without faults and interference it succeeds exactly when it is runnable and permitted |
| PhaseBInstall.CreateDisk | src/engine/executor.rs:936-988 | the image is in the stored manifest before it is created, and is created only when host commands run |
| PhaseBInstall.DefineVm | src/engine/executor.rs:990-1015 | the undefine action is stored only for a domain that is defined; a refused definition takes a new image with it |
| PhaseBInstall.RunVmRegisterStep | src/engine/executor.rs:896-1018 | registration needs the existing image, the XML entry and a free name, and then defines exactly the configured domain, with the new image of the chosen size and format |
| PhaseBInstall.RunHookInstallStep | src/engine/executor.rs:1020-1175 | three scripts where libvirt looks for them, each under its own name, recorded and executable, made for the configured VM, the host's display manager, and the vendor and ids of the GPU behind the only passthrough role, or no success; without such a GPU, or for an unmanaged display manager or a malformed id, it fails with its own error; without faults and interference it succeeds exactly when the context is scriptable and the writes are permitted |
| PhaseBInstall.HookWritesAreDistinct | src/engine/executor.rs:1104-1112 | the three script paths differ for every domain name |
| PhaseBInstall.ContextIs | src/engine/executor.rs:1020-1060 | what the scripts are made for, in terms of roles and GPUs |
| PhaseBInstall.StepDelivers | src/engine/executor.rs:818-1175 | a step that succeeds has delivered: the hook scripts in their places, the XML at its path, the domain and the new disk image of the size and format chosen |
| PhaseB.RunSteps | src/engine/executor.rs:681-752 | the steps run in order; on a host left alone their effects add up: files, domains, actions and manifest after any prefix |
| PhaseB.ExecutePhaseB | src/engine/executor.rs:662-765 | snapshots are kept at every operation; a record whose manifest is missing fails and changes nothing of Virtu's; one whose manifest covers it changes only its files and only once covered; the pending record survives every failure and is gone after success; a refusal needs a Phase-A step in the record; without faults and interference a runnable job succeeds |
| PhaseB.RunDelivers | src/engine/executor.rs:662-765 | and after a successful Phase B that writes no file twice all of it is still there |
| PhaseB.OutcomeKindsAre | src/engine/executor.rs:681-764 | the completed and the deferred steps reported are the kinds of the remaining steps, in order, Looking Glass being the one that is deferred |
| PlannedRun.PlannedWrites | src/engine/planner.rs:438-605 | what a planned Phase B writes: scripts if wanted, the XML, the image if asked for |
| PlannedRun.PlannedRunIsPlain | src/engine/planner.rs:499-605 | a planned Phase B registers one domain, and writes each file once if and only if a new image is kept off the hook scripts and the XML that are written |
| Retry.RetrySucceedsIff | src/engine/executor.rs:662-765 | rerunning a failed Phase B without faults succeeds if and only if the domain is not defined yet and no captured file has been replaced |
| Retry.ResumableStill | src/engine/executor.rs:681-764 | after any stop the record that is still there is as executable as before |
| Retry.NewFilesUnspoiled | src/config/atomic_write.rs:41-85 | files that did not exist at capture never stand in the way of a rerun |
| Retry.RetryIsEquivalent | src/engine/executor.rs:662-765 | a successful rerun completes the same steps and leaves the files an uninterrupted run with that XML leaves |
| Resume.HostIdentityChanges | src/engine/resume.rs:268-289 | exactly the mismatches that hold are reported: distribution, bootloader kind, initramfs system, each with what was expected and what was found |
| Resume.VerifyPhaseALanded | src/engine/resume.rs:173-229 | exactly the divergences that hold of the host are reported, or on another host exactly the mismatches; ready if and only if there are none on the right host |
| Readiness.DriverIs | src/engine/resume.rs:253-266 | the driver looked at for an id is that of the first GPU whose vendor and device agree with the id up to its first colon and after it, letter case aside |
| Readiness.LacksRequired | src/engine/resume.rs:234-251 | a parameter is missed exactly if it is the vendor's switch or `iommu=pt` and no word of the boot line, or the id list with its key and nowhere in the line |
| Readiness.DivergencesAre | src/engine/resume.rs:173-229 | each divergence in terms of the boot line, the loaded modules and the GPUs of the host alone |
| Readiness.VerdictIs | src/engine/resume.rs:173-229 | so is the verdict: wrong host, ready, or not ready, with all its reasons |
| Booting.RewrittenFileBoots | src/config/writers/grub.rs:36-155 | for every accepted GRUB file: every boot line with the words of the rewritten file has a requested parameter if and only if the file had no target, or one whose value was not a blank and then a quote, or one with the parameter already inside the quotes its words close |
| Booting.BlankThenQuoteBoots | src/config/writers/grub.rs:124-154 | a file whose rewrite a boot can follow without getting the parameter |
| Resume.RewrittenFileVerifies | src/engine/resume.rs:234-251 | the same for what the verifier looks for, which for the id list is any occurrence |
| Resume.GrubEditIsVerified | src/engine/resume.rs:187-198 | after Phase A edited the GRUB file, the verifier misses no kernel parameter on any host booted with it if and only if the target line it had keeps them all |
| Resume.VerifyHookInstall | src/engine/resume.rs:303-379 | nothing is written; on an idle host one divergence, of the right kind, for each hook entry that is absent, altered, unrecorded or not executable, in manifest order, and no others; so none exactly if every hook file is there, executable and as recorded |
| Resume.CapturedHookEntries | src/snapshot/mod.rs:217-225 | a plan's snapshot has hook entries for its three scripts only |
| Resume.HooksVerifyAfterPhaseB | src/engine/resume.rs:303-379 | right after a successful Phase B from a manifest with hook entries for the three scripts only, hook verification finds nothing |
| HookPlan.CheckHandoff | src/vm/validation.rs:426-448 | each of the two issues is raised exactly when it holds of a plan with hook hand-off, in this order; there is none exactly for plans without hand-off and single-GPU ones with a managed display manager |
| HookPlan.AcceptedHooksGenerateIff | src/engine/planner.rs:191-195 | for an accepted plan the scripts can be generated exactly when the display manager is managed |
| HookPlan.AcceptedHooksFailFor | src/vm/validation.rs:426-448 | acceptance alone does not promise that they can |
| Commands.RunApply | src/main.rs:92-156 | `apply` writes nothing while a plan is pending; otherwise every stop leaves a recoverable host; after a success the pending record remembers the plan and the host, the report lists the edits made, the regenerate commands have been run if asked for, and on a host left alone every edited file holds what its writer makes of what was there |
| Commands.RunResume | src/main.rs:158-293 | `resume` writes nothing on the wrong or unready host or with an unreadable record, and then gives the verdict that holds of the host for the record on disk; a record Virtu left is never refused by Phase B; a success reports the steps made and those put off |
| Commands.RunRollback | src/snapshot/mod.rs:515-526 | `rollback` brings every entry of the manifest on disk back at some operation and reports the manifest's actions in full; if nobody interferes the files at its end are exactly the restored ones |
| PlannedResume.PlannedHooksVerify | src/engine/resume.rs:303-379 | end to end: a plan with hooks is applied, its record resumed with success, and hook verification finds nothing |
| PlannedResume.PlannedRecordIsRunnable | src/engine/executor.rs:662-765 | the record a planned apply leaves is runnable: its snapshot has the XML entry, covers every write, and permits them unless a captured file was replaced |
| PlannedResume.PlannedVmIsInstalled | src/engine/executor.rs:662-765 | end to end: after a successful resume of a planned record the hook scripts, if single-GPU or hook hand-off calls for them, the XML, and in a live run the domain and the new image are where the plan says |
| Runs.ActionKeepsSound | src/main.rs:92-293 | each command, stopped anywhere and with others at work before all its operations, keeps every snapshot and the pending record executable |
| Runs.NothingThereIsSound | src/main.rs:92-108 | that holds before Virtu has written anything |
| Runs.AlwaysSound | src/snapshot/mod.rs:113-212 | so it holds at every point of every history, and snapshots once taken stay, with legitimate additions only |
| Runs.AlwaysRestorable | src/snapshot/mod.rs:113-212 | a snapshot that can be restored from stays so at every later point of every history and at every operation in between |
| Runs.RollbackUndoesApply | src/snapshot/mod.rs:358-450 | the rollback theorem: however a history goes on after a plan was applied, completely or not, the snapshot can be rolled back to unless a target has become a bare directory, and that gives every target the presence and digest the apply saw, its very content unless contents collide; the apply saw what was there before wherever others left the target alone |
| Runs.RollbackReachesTargets | src/snapshot/mod.rs:385-449 | even a rollback that others interfere with has every target as the apply saw it at some operation |
| Runs.WrittenMeansTracked | src/engine/executor.rs:136-208 | no operation of any command writes a host path that no snapshot then on disk covers, and one still does at the end |
| Runs.ChangedMeansTracked | src/engine/executor.rs:136-208 | a host path that changed during a command is covered by a snapshot, if nobody else (host commands included) changed it |
| Runs.UntrackedIsUntouched | src/engine/executor.rs:662-765 | a host path no snapshot mentions at the end was never written by an operation of Virtu's own on the way |
| Invocations.ApplyNow | src/main.rs:92-156 | an `apply` on the store is an action of a history, and keeps its invariant; on a host left alone every file it edited says what its step is for |
| Invocations.ResumeNow | src/main.rs:158-293 | so is a `resume` on a sound disk, whose pending record is one it may follow; its verdict is the one that holds of the host |
| Invocations.RollbackNow | src/snapshot/mod.rs:515-526 | so is a `rollback`, with its report |
| Invocations.RecordIsFromApply | src/main.rs:92-156 | a pending record found at any point of a history that began without one remembers an apply of that history |
| Invocations.VerdictAfterApply | src/engine/resume.rs:173-229 | for the record of an apply a host is the wrong one if and only if it differs from the host of the apply in distribution, bootloader kind or initramfs system, and otherwise ready if and only if the IOMMU is active, the module loaded, the parameters on the boot line and the devices bound |
| Invocations.ApplyThenResume | src/main.rs:92-293 | the same about the two commands: after a successful `apply`, `resume` refuses exactly the hosts that differ so and those on which something asked for is not in effect |
| Invocations.ActionsStay | src/snapshot/mod.rs:263-298 | whatever happens after an apply, the rollback actions that follow from its steps stay first in its manifest |
| Invocations.UndoApply | src/snapshot/mod.rs:358-450 | the rollback theorem about the command itself: at the end of any history, `rollback` to the snapshot of an apply in it succeeds without faults and interference unless a target has become a bare directory, and brings every target back as the apply saw it; its report has the actions that follow from the plan's steps |
| LineView.EditNothingIff | src/config/writers/grub.rs:95-132 | on every target line an edit changes nothing if and only if every word is there and the spacing is canonical |
| LineView.ExtraIsSettled | src/config/writers/systemd_boot.rs:68-74 | an appended line is a target that already has every word |
| LineSyntax.GrubTargetIs | src/config/writers/grub.rs:81-93 | character by character, the GRUB lines that are targets: assignments of the variable with blanks around its name at most |
| LineSyntax.SystemdTargetIs | src/config/writers/systemd_boot.rs:34-66 | the word `options` after blanks at most |
| LineSyntax.MkinitcpioTargetIs | src/config/writers/initramfs/mkinitcpio.rs:14-31 | an assignment of `MODULES` after blanks at most |
| LineSyntax.GrubEditQuoted | src/config/writers/grub.rs:95-132 | what an edit makes of a quoted value: the words between the quotes change, the quotes and what follows them stay |
| LineSyntax.GrubEditUnquoted | src/config/writers/grub.rs:95-132 | and of an unquoted one |
| LineSyntax.GrubEditUnclosed | src/config/writers/grub.rs:134-154 | a quote that is not closed is refused |
| LineSyntax.SystemdEdit | src/config/writers/systemd_boot.rs:40-62 | the blanks before `options` stay, and its words are spaced evenly |
| LineSyntax.MkinitcpioEdit | src/config/writers/initramfs/mkinitcpio.rs:47-69 | an array keeps its words and gets the missing modules, and blanks around it go |
| LineSyntax.MkinitcpioEditAccepts | src/config/writers/initramfs/mkinitcpio.rs:47-69 | and nothing but an array is accepted |
| LineSyntax.AddMissingIs | src/config/writers/grub.rs:112-118 | old words stay first, and each wanted word that was not among them follows once, in the order wanted |
| Requoting.EditReadBack | src/config/writers/grub.rs:95-155 | an edited line is a target again, and its frame and words are known from the line before; it cannot be read back exactly if the line was a blank and a quote its words do not close |
| Requoting.EditMeaningIff | src/config/writers/grub.rs:95-132 | an edited line has the old words followed by the missing ones, in the same frame, if and only if its value was not a blank and then a quote |
| Requoting.SettledOnceIff | src/config/writers/grub.rs:124-154 | the second edit of a line changes nothing, except for a value that is a blank and a quote whose evenly spaced words do not close that quote around evenly spaced words with every parameter |
| LineRewriter.RewriteLines | src/config/writers/grub.rs:44-77 | a pass succeeds exactly with no target or a single one that parses; every other line stays in place |
| LineRewriter.IdempotentIff | src/config/writers/grub.rs:72-75 | for every dialect and every file the rewrite accepts: two passes equal one if and only if there is no target, or the file does not end in three newlines and the target line settles at once, which is read off the line |
| LineRewriter.SecondPassIff | src/config/writers/grub.rs:36-77 | a second pass succeeds if and only if there is no target, or one whose edit can be read back |
| LineRewriter.IdempotentWhenAppending | src/config/writers/initramfs/mkinitcpio.rs:10-45 | a file without a target needs one pass only, whatever it ends in |
| LineRewriter.NoOpIff | src/config/writers/grub.rs:9-11 | a pass changes nothing on exactly the files with at most one final newline, canonical spacing and all words present |
| LineRewriter.DropsOneNewline | src/config/writers/systemd_boot.rs:76-79 | every accepted file with a target that ends in two or more newlines loses exactly one in a pass, and another keeps its ending |
| LineRewriter.SettlesWithin | src/config/writers/grub.rs:72-75 | for a file whose second pass succeeds, repeated passes settle: one pass for each final newline but one, and at least one, or two for a target line that does not settle at once |
| LineRewriter.SettlesIff | src/config/writers/grub.rs:36-77 | no other file settles |
| Grub.EnsureParamsInLine | src/config/writers/grub.rs:95-132 | the loop over the parameters computes the dialect's edit |
| Grub.RewriteGrubDefault | src/config/writers/grub.rs:36-77 | the line loop computes the generic rewrite of the GRUB dialect |
| Grub.RewriteMeaning | src/config/writers/grub.rs:44-77 | one target in the same place before and after, all other lines unchanged; it has the same key, quote and tail and old words then missing parameters if and only if the value was not a blank and then a quote, and otherwise what reading back gives |
| Grub.AppendMeaning | src/config/writers/grub.rs:64-70 | without a target all lines stay and one with exactly the parameters follows |
| Grub.RewriteTwice | src/config/writers/grub.rs:36-77 | adding p and later q is adding both at once exactly on files not ending in three newlines whose target value is not a blank and then a quote, or is one that already quotes every word of q, evenly spaced, and with p lacks none of them |
| Grub.BlankThenQuoteUnstable | src/config/writers/grub.rs:124-154 | a blank-then-quote value changes again on the second pass |
| Grub.BlankThenQuoteFile | src/config/writers/grub.rs:124-154 | a file that changes again on the second pass |
| Grub.BlankThenQuoteSettledFile | src/config/writers/grub.rs:124-154 | a blank-then-quote file that does not |
| Grub.UnclosedQuoteFile | src/config/writers/grub.rs:124-154 | a file the first pass accepts and the second refuses |
| Grub.ThreeNewlinesFile | src/config/writers/grub.rs:72-75 | a file ending in three newlines that loses another one on the second pass |
| SystemdBoot.RewriteSystemdBootEntry | src/config/writers/systemd_boot.rs:26-81 | the line loop computes the generic rewrite of the `options` dialect, rejecting a second `options` line |
| Mkinitcpio.EnsureModulesInArrayLine | src/config/writers/initramfs/mkinitcpio.rs:47-69 | the module loop computes the dialect's edit |
| Mkinitcpio.RewriteMkinitcpioConf | src/config/writers/initramfs/mkinitcpio.rs:10-45 | the line loop computes the generic rewrite of the `MODULES` dialect |
| UpdateInitramfs.RewriteInitramfsModules | src/config/writers/initramfs/update_initramfs.rs:15-59 | the loops compute the text of the specification |
| UpdateInitramfs.RewriteModulesCorrect | src/config/writers/initramfs/update_initramfs.rs:15-59 | on all inputs: the old text stays as a prefix, the named modules are the old and the wanted ones, and a second run changes nothing |
| CpuList.CompressCpuList | src/vm/cpu_topology.rs:88-121 | the text shows the sorted distinct ids as runs separated by gaps; `end + 1` never overflows 32 bits |
| CpuList.WrittenRanges | src/vm/cpu_topology.rs:88-121 | each part is a number alone or the first and the last of two or more with a dash, and the parts increase with a gap between each and the next |
| CpuList.ParseCpuList | src/detect/cpu.rs:211-226 | the loop concatenates what each part stands for |
| CpuList.ParseShow | src/vm/cpu_topology.rs:88-121 | every 32-bit number is read back from its decimal form |
| CpuList.ParseForms | src/detect/cpu.rs:211-226 | a plus sign or leading zero makes no difference to a number read |
| CpuList.CpuListRoundTrip | src/detect/cpu.rs:211-226 | parsing a compressed list gives the strictly increasing list of the distinct ids, the empty list included |
| CpuList.FewestParts | src/vm/cpu_topology.rs:88-121 | no text that stands for the same numbers has fewer parts |
| CpuTopology.CalculatePinning | src/vm/cpu_topology.rs:26-84 | VM and host cores together are the sorted cores; the VM's share, the pin of each vCPU and the emulator's set are as specified, and what that means is stated by the rows below |
| CpuTopology.HostKeepsCores | src/vm/cpu_topology.rs:36-44 | the host keeps a core, and two on a machine of eight or more |
| CpuTopology.VmShare | src/vm/cpu_topology.rs:26-44 | the VM's share exactly: no core beyond the request except the first, none only on a machine with one core, and all that is asked for until the host is down to its reserve |
| CpuTopology.SidesApart | src/vm/cpu_topology.rs:14-25 | no thread is on both sides |
| CpuTopology.EmulatorSetIsHost | src/vm/cpu_topology.rs:59-77 | the emulator's set, read back, is exactly the threads of the host's cores |
| CpuTopology.PinsAreApart | src/vm/cpu_topology.rs:46-57 | vCPUs are numbered from 0 on distinct threads, none in the emulator's set |
| CpuTopology.AllVcpusPinned | src/vm/cpu_topology.rs:27-57 | every vCPU gets a thread when the request is whole cores and enough remain after the reserve |
| CpuTopology.PinsFollowCores | src/vm/cpu_topology.rs:46-57 | vCPUs run through the threads of the VM's cores in order, until all have one or no thread is left |
| CpuTopology.UniformPins | src/vm/cpu_topology.rs:46-57 | with cores alike vCPU i runs on thread i mod t of core i / t, and as many are pinned as there are threads or vCPUs, whichever is fewer |
| CpuTopology.FirstVcpuPinned | src/vm/cpu_topology.rs:26-57 | on two or more cores, none of them empty, a vCPU asked for is a vCPU pinned |
| CpuTopology.SingleCoreMachine | src/vm/cpu_topology.rs:36-57 | a machine with one core pins nothing |
| CpuTopology.EmulatorFallback | src/vm/cpu_topology.rs:71-77 | with no thread on the host's side the emulator's set is every logical processor |
| CpuDetect.RecordCpuBlock | src/detect/cpu.rs:142-153 | a block is filed under its package and core, after the earlier ones |
| CpuDetect.BuildCoreThreadMap | src/detect/cpu.rs:91-140 | core i is the i-th recorded key with its sorted processors; without records every processor line is a core |
| CpuDetect.ParseTopology | src/detect/cpu.rs:40-73 | hyperthreading means a core with two threads; the logical count is the sum of the lists |
| CpuDetect.CoresPartitionProcessors | src/detect/cpu.rs:91-140 | for distinct processor numbers the lists are sorted, non-empty, disjoint and hold exactly the recorded processors |
| CpuDetect.FallbackPartitions | src/detect/cpu.rs:120-130 | the fallback map is as disjoint and non-empty |
| CpuDetect.ThreadsAreRecords | src/detect/cpu.rs:56-58 | the logical count is the number of recorded blocks |
| CpuBlocks.FieldValue | src/detect/cpu.rs:155-157 | a field written as name, colon and decimal number, with blanks anywhere between, is read as that number |
| CpuBlocks.RecordedIffPlaced | src/detect/cpu.rs:91-153 | what is recorded of a file, in terms of its lines: the last processor, core and package lines of each run of lines without a blank one, the package being 0 if there is none |
| CpuBlocks.ShareCoreIff | src/detect/cpu.rs:87-140 | two processors share a core if and only if the file has blocks for them with the same package and core numbers |
| CpuBlocks.CoresInOrder | src/detect/cpu.rs:133-137 | cores are numbered by package first and core number second |
| CpuBlocks.FallbackCores | src/detect/cpu.rs:120-130 | a file without a usable block has a core for each line that begins with `processor` |
| CpuDetect.CpuinfoToPins | src/vm/cpu_topology.rs:26-84 | from file to pins: each pinned vCPU has a recorded processor of its own outside the emulator's set |
| GpuRoles.RecommendGpuAssignment | src/vm/passthrough.rs:431-513 | the loops compute the chosen mode and one role per GPU |
| GpuRoles.RecommendationShape | src/vm/passthrough.rs:431-513 | one role per GPU in order, exactly one passthrough GPU, exactly one host GPU when there are two or more |
| GpuRoles.DerivedModeAgreesIff | src/vm/passthrough.rs:357-391 | the derived mode equals the recommended one except when no GPU is discrete and the one that stays, by position and flags in the list, is integrated |
| GpuRoles.DerivedModeByKinds | src/vm/passthrough.rs:431-513 | so they agree without an integrated GPU or with a discrete one, and never for two or more integrated ones |
| GpuRoles.TwoIntegratedGpus | src/vm/passthrough.rs:431-513 | two integrated GPUs are recommended as dual GPU, and their roles say integrated host |
| GpuRoles.ChoiceIsIsolated | src/vm/passthrough.rs:431-513 | the passthrough GPU is isolated whenever an eligible candidate is |
| GpuRoles.CheckGpuRoles | src/vm/validation.rs:283-415 | the check appends exactly the issues of the specification |
| GpuRoles.FindGpuIff | src/vm/passthrough.rs:616-621 | lookup finds the first GPU with the slot |
| RoleChecks.SoleGpuIff | src/vm/passthrough.rs:396-429 | the GPU of a role is found exactly if one assignment only has the role and its slot is listed |
| RoleChecks.PassthroughGpuIff | src/vm/passthrough.rs:409-416 | the GPUs to pass through are those a passthrough role finds |
| RoleChecks.DerivedModeIff | src/vm/passthrough.rs:357-391 | the mode derived from any role list: two passthrough roles, one and no host, or one of each, by the kind of the host's GPU |
| RoleChecks.RoleIssuesCount | src/vm/validation.rs:283-415 | for every role list, how often each issue is raised, with its severity: once for each repeated slot, each unknown slot, each GPU without a role, each passthrough GPU not isolated, each host GPU on vfio-pci, and once for a missing passthrough role, a mode mismatch, single GPU and multi GPU |
| RoleChecks.RecommendationIs | src/vm/passthrough.rs:431-513 | the recommended mode and each role, by kinds, positions and flags of the list |
| GpuRoles.RecommendationPassesChecks | src/vm/validation.rs:283-415 | the recommended roles raise none of the role errors outside that exception |
| Sorting.SortDedupCorrect | src/snapshot/pending.rs:81-92 | `sort` then `dedup` is the strictly increasing list of the distinct elements |
| Sorting.StringLeqIs | src/snapshot/pending.rs:81-92 | strings are ordered by the first character in which they differ, a prefix first |

## Left out

- TOML, timestamps, uuid generation and the inside of SHA-256: assumed round trips, fresh values and a hash parameter.
- Detection over `/sys`, `/proc` and systemd, except the cpuinfo and cpulist parsers; the TUI, printing, logging and command-line parsing.
- The text of the libvirt XML and of the hook scripts: opaque contents; that the XML names the configured domain is part of the abstract effect of `virsh define`.
- Compatibility report, knowledge base and the validation checks other than GPU roles and hook hand-off: mostly one-branch facts.
- Manifest metadata (version, host and plan summaries): carried along by the code without effect on the protocol.
- Two Virtu processes at once, and other programs that change `~/.virtu` itself: others may change everything else, at any time.
- File modes other than the executable mark, and directories: rollback does not restore them, and no claim is made.
- Rollback does not clear the pending record; the histories allow a later `resume`, and no claim is made that it is a good idea.
- `RollbackUndoesApply` covers file presence and content; regenerating boot images and undefining domains are actions shown to the user.
- Text that is not valid UTF-8 (the code replaces it), and carriage returns in files given to the line rewriters: those theorems require files without them.
- `copy` of the file store, which the protocol does not use, and relative paths or paths with `.` and `..` components.
- Planner.MakePlan: the verdicts of the compatibility report and of the validation are its inputs; what blocks a plan is not modelled, except for the GPU roles and the hook hand-off.
- PhaseA.ExecutePhaseA: for a fresh snapshot id and targets outside Virtu's own directories; the planner only produces such targets from host paths (`Planner.PlannedTargetsAreHost`).
- PhaseB.ExecutePhaseB: for records none of whose steps would write Virtu's own directories, which `Runs.AlwaysSound` shows of every record Virtu itself leaves; the code would follow a record edited by hand to do that. Exact effects and success are stated for hosts left alone.
- Commands.RunResume: for the same records.
- AtomicWrite.SnapshotThenWrite: promises nothing for an edit made between its read and its write, which the code overwrites.
- What host commands do to files: bounded only by their not touching `~/.virtu`; that `grub.cfg` and boot images are regenerated, and from what, is not modelled.
- PhaseAEdits.RunInitramfsStep: an unreadable modules file counts as empty, as in the code, so with faults the text written need not be derived from the old one.
- Resume.GrubEditIsVerified: for GRUB only, since for systemd-boot the planned target is loader.conf and not an entry.
- Runs.RollbackUndoesApply: for an apply whose existing targets do not share a flat backup name; `Capture.CaptureBacksIff` shows that this is needed, and other applies of the history are not concerned.
- CpuDetect.CoresPartitionProcessors: for fewer than 2^32 cores, where the code's 32-bit core index does not wrap.
- The manifest is a value that methods take and return, as a run owns its only copy; aliasing of it is not modelled.
