# The HF CSI node plugin's mount bookkeeping, modelled and proved in Dafny

The node plugin mounts Hugging Face buckets and repositories into pods. Much of
its state is somewhere else: in the kernel's mount table, in HFMount objects on
the API server, in file descriptors that belong to FUSE connections. This
project models that bookkeeping as it runs against an abstract host and proves
what it keeps, over every input, every interleaving and every run.

The host has three parts: a kernel mount table (a sequence of rows, the last row
of a path being the top of its stack), an API server with versioned objects and
pods, and descriptors told apart by when they were opened. What the code cannot
know (which API call fails, what a daemon does between two calls, what others
edit) is an arbitrary function or an arbitrary step, so a theorem about all of
them is a theorem about every behaviour of the outside. Strings are Go's byte
strings, one char per byte. The volume ID of a target is an arbitrary function
`id`; nothing assumes that it is injective.

| module | file | what it models |
|---|---|---|
| `SourceLock` | `source_lock.dfy` | the ref-counted per-source lock, on objects and as an interleaved protocol |
| `NodeMachine` | `node_machine.dfy` | Mount, Unmount, rebind, cleanup, late adoption, recovery as interleaved goroutines |
| `UnmountPop`, `UnmountPopRun` | `unmount_pop.dfy`, `unmount_pop_run.dfy` | what an Unmount's detach of the source can hit, when an unmounted target is tracked again, and runs in which these and the lock leak happen |
| `RebindTracked` | `rebind_tracked.dfy` | that a rebind only touches what is tracked at that moment |
| `MountOps` | `pod_mounter.dfy` | the same operations run to completion: exact effects, convergence, conservative cleanup |
| `MountAttempts` | `mount_attempts.dfy` | repeated Mount attempts against a pod that changes on its own |
| `Healing` | `healing.dfy` | what Mount stores in the HFMount object and what a heal rebuilds from it |
| `HFMount` | `hfmount.dfy` | the workload list under optimistic concurrency |
| `MountTable`, `MountinfoText`, `Mountinfo` | `mount_table.dfy`, `mountinfo_text.dfy`, `mountinfo.dfy` | the mount table, its printed form, and the scans that read it back |
| `FuseLiveness`, `FuseSweeper` | `fuse_liveness.dfy`, `fuse_sweeper.dfy` | the orphaned-connection sweeper and its liveness test |
| `MountArgs`, `ReadOnlyVerdicts`, `Resources` | `mount_args.dfy`, `read_only.dfy`, `resources.dfy` | command lines, the two read-only classifiers, the resource fold |
| `NodePublish`, `SidecarHandoff` | `node_publish.dfy`, `sidecar_handoff.dfy` | sidecar tracking over publish/unpublish/restart, and descriptor ownership in the handoff |
| `StartupTaint` | `startup_taint.dfy` | removing the startup taint amid concurrent edits |

Where the code updates things in place the model does too: classes with the
source's fields, loops with invariants. Each method is proved against a function
of the old state, and its contract also says outright what that comes to, check
by check and value by value, without naming the function. Lemmas then say what
the functions mean over whole runs.

`dafny verify dfyconfig.toml` checks the project.

## What turned out not to hold, and exactly when it does

* Unmount's deferred release reads a variable that Unmount reassigns. For an
  untracked target the release runs with the key `""`, so a source's entry with
  no users can stay in the lock table. Mutual exclusion is unaffected
  (`SourceLock.LockIsExclusive`); the table holds exactly the active sources and
  the leaked ones (`SourceLock.TableContents`). An Unmount of a target that is
  not tracked leaks if it is the source's last user, for instance alone on the
  node (`UnmountPopRun.UntrackedUnmountLeavesLock`, `SourceLock.UntrackedUnmountLeaks`).
* Unescaping undoes octal escaping of every byte path if and only if the escape
  set contains the backslash or the four digits 0 to 3
  (`MountinfoText.EscapeRoundTrip`).
* The scan behind rebinding reports "bound" only for distinct paths and only if
  every line fits the scanner's 64 KiB buffer (`Mountinfo.ScanRecoversTable`).
* The minor that an abort or a handoff exemption is resolved to is that of a
  bottom FUSE mount, not of a top one, and it is looked up by comparing printed
  text: a path is taken for the path whose printed form it reads like, and for
  none if there is no such path (`Mountinfo.FirstMinorAnswers`). The answer is
  the path's own bottom FUSE mount on every table if and only if the path has no
  space, tab, newline or backslash (`Mountinfo.FirstMinorIsOwnBottom`). For such
  a path it is the own top one exactly if the path's first and last minors in
  the table agree (`Mountinfo.FirstMinorIsOwnTop`); with two different FUSE
  mounts stacked, the lower one is found (`Mountinfo.BottomIsFound`). With a
  backslash it can be another path's (`Mountinfo.OtherPathsMinor`,
  `Mountinfo.EscapedFindsOwnTop`). The check made before a republish does find
  the top mount of any path (`Mountinfo.SidecarSeesTop`).
* The webhook and the driver disagree on read-only if and only if the webhook
  says writable and a freely chosen value reads `repo` or `--read-only`
  (`ReadOnlyVerdicts.VerdictsAgree`, `ReadOnlyVerdicts.BucketCalledRepo`).
* The repository's README.md (lines 257-260) says that the first volume's
  resource hint wins. The code takes the per-field maximum: the first volume
  that sets a field decides it if and only if no other sets a larger value
  (`Resources.FirstHintWins`, `Resources.SecondHintWins`). The log format alone depends on the
  order, unless all volumes that name one agree
  (`Resources.LogFormatIgnoresOrder`).
* A heal from an HFMount object that existed before a Mount rebuilds that
  Mount's pod if and only if the stored source, arguments, limits and effective
  requests are the Mount's (`Healing.HealFromExistingObject`). After a Mount
  without a token file, a lost pod and a Mount with one, the object still has
  the first arguments, and a heal brings back another pod than the second Mount
  made (`Healing.Volume.HealAfterSecondMount`).
* A sweep that fails to list an input leaves the streaks alone, so "two sweeps
  in a row" means two completed sweeps in a row (`FuseSweeper.MemoryIsHistory`).
* The sweeper's exemptions form a set, not a count. The exemption of a minor is
  right at every moment, however handoffs interleave, if and only if every
  handoff of that minor that finishes is then the only one in flight
  (`SidecarHandoff.ExemptWhileInFlight`); otherwise the first to finish ends the
  exemption of the other (`SidecarHandoff.OverlapLosesExemption`).
* A sidecar mount is tracked if and only if it is not lost: a restart loses it,
  and so does a setup that fails without undoing its mount on a target that was
  not tracked, until a publish sees it (`NodePublish.TrackedUnlessLost`). An
  unpublish stats exactly the lost ones (`NodePublish.SidecarIsStatted`), and a
  restart does lose one (`NodePublish.RestartLoses`).
* An unpublish can abort the connection of a bind mount, which is its source's.
  Over any run it can if and only if a publish in mount-pod mode bound on a
  target while that was tracked as a sidecar mount (`NodePublish.BindAborts`);
  detaching a sidecar mount behind the plugin's back makes room for such a bind
  (`NodePublish.MixedModesAbort`), so the comment at pkg/driver/node.go:317-319
  holds only under that condition. A target published in one mode only is safe
  (`NodePublish.FixedModesNeverBind`).
* An Unmount decides to detach a source when no other target is tracked under
  it, and detaches later. Some target is tracked again by then if and only if an
  adoption or a recovery, which take no source lock, recorded references of that
  source in between (`UnmountPop.PopHitsTracked`). That happens: for every
  target there is a run at whose end its own Unmount is about to detach the
  source while the target, bare, is tracked under it again
  (`UnmountPopRun.PopCanHitTracked`). So an Unmount that succeeded need not stay
  the last word: until the next Mount, its target is tracked if and only if an
  adoption or a recovery recorded it since and nothing has forgotten it again
  (`UnmountPop.TrackedAgain`).

## Model

| member | source | states |
|---|---|---|
| SourceLock.SourceLocks.AcquireSourceLock | pkg/driver/podmounter.go:120-131 | the caller gets the object stored for the source, a new one only if there was none, and exactly one more user is counted |
| SourceLock.SourceLocks.ReleaseSourceLock | pkg/driver/podmounter.go:133-141 | one user less on the given object; at zero the entry under the given key goes, whichever key that is |
| SourceLock.StepKeepsInv | pkg/driver/podmounter.go:120-141 | every acquire, lock, unlock or release, by any goroutine, keeps: users of a source share its stored object, counts equal numbers of users, one holder per object |
| SourceLock.LockIsExclusive | pkg/driver/podmounter.go:120-141 | in every interleaving: goroutines on one source hold one object whose count is their number and whose entry is present, and at most one is in the critical section, although a release may use the key "" |
| SourceLock.TableContents | pkg/driver/podmounter.go:926-954 | after any run the table's keys are exactly the active sources and the sources whose last release ran with "" and that nobody acquired since |
| SourceLock.UntrackedUnmountLeaks | pkg/driver/podmounter.go:926-943 | acquire, lock, unlock, release with "" leaves the source's entry behind with no user |
| NodeMachine.StepKeepsInv | pkg/driver/podmounter.go:390-1180 | each step of Mount, Unmount, rebind, cleanup, adoption, recovery, of a daemon or a restart keeps the ownership of binds, mounts and list entries, the lock discipline, and what a rebind has probed |
| NodeMachine.BindsAndLayersBelong | pkg/driver/podmounter.go:405-417 | in every reachable state a tracked target is tracked under its own source, a mount of a source's superblock on a target is on a target of that source, and listed targets are the object's source's |
| NodeMachine.RunsAreExclusive | pkg/driver/podmounter.go:656-664 | at any time at most one goroutine works on a source, always under that source's key, and every step that can happen next respects the lock protocol |
| NodeMachine.TargetStackIsHolders | pkg/driver/podmounter.go:669-736 | the stack of a target changes only by a step of the goroutine that holds the target's source |
| NodeMachine.StacksAfterStep | pkg/driver/podmounter.go:390-1180 | every mount adds its layer on top of one path, every detach takes the top of one path, and no other step touches a stack |
| NodeMachine.ListedUntilShrunk | pkg/driver/hfmount.go:98-142 | what a Mount or an adoption lists in the object stays listed, over restarts too, until entries are taken away |
| NodeMachine.PodUIDMeans | pkg/driver/podmounter.go:436-450 | the pod UID of a target is the path element behind the kubelet's pods directory, and other paths have none |
| NodeMachine.RebindAddsNewMount | pkg/driver/podmounter.go:669-705 | between probe and bind nobody else changes the target, so a rebind adds a mount only over one that differs from the source's current top |
| RebindTracked.RebindTouchesTracked | pkg/driver/podmounter.go:656-709 | in every run, the path a rebind detaches or binds is tracked at that very moment, under the source being rebound, whatever happened since it took its list |
| NodeMachine.RefinesLockProtocol | pkg/driver/podmounter.go:120-141 | the lock steps of any run between restarts are a run of the lock protocol ending in the same lock state |
| NodeMachine.PopKeepsBelonging | pkg/driver/podmounter.go:750-760 | detaching the top of any path never makes a mount belong elsewhere |
| UnmountPop.PopHitsTracked | pkg/driver/podmounter.go:936-990 | in every run, the source that an Unmount of a tracked target detaches has a tracked target again if and only if references of it were recorded since the Unmount decided |
| UnmountPopRun.PopCanHitTracked | pkg/driver/podmounter.go:947-990 | for every target a run ends with its Unmount about to detach the source while the target is bare and tracked under it again, recorded by an adoption since the decision |
| UnmountPopRun.UntrackedUnmountLeavesLock | pkg/driver/podmounter.go:926-943 | for every target, an Unmount of it on an empty node ends with nobody using its source and the entry still in the lock table |
| UnmountPop.TrackedAgain | pkg/driver/podmounter.go:936-960 | in every run: after an Unmount committed and until a Mount records the target again, it is tracked if and only if an adoption or a recovery recorded it since and no unmount, cleanup or restart forgot it after that |
| UnmountPop.OthersLeaveTracked | pkg/driver/podmounter.go:405-417 | while a goroutine holds a source, only the recording of references changes which targets are tracked under it |
| MountTable.LayersOfPop | pkg/driver/podmounter.go:750-760 | detaching removes the newest layer of that path and touches no other path |
| MountTable.PopNLeaves | pkg/driver/podmounter.go:750-760 | n detaches leave all but the n newest layers |
| MountOps.Host.UnmountAll | pkg/driver/podmounter.go:750-760 | at most 32 layers of the path go, nothing else changes |
| MountOps.Host.StackBind | pkg/driver/podmounter.go:711-736 | a bind that works stacks the source's top on what is there; one that fails detaches that, 32 mounts at most, and binds once more on the rest; no other path changes |
| MountOps.PodMounter.RebindTargets | pkg/driver/podmounter.go:656-709 | every tracked target gets exactly the stack the probe and the two bind attempts lead to; every other path keeps its stack; a source that is not mounted, or whose mount checks fail, means no change |
| MountOps.ReboundOutcome | pkg/driver/podmounter.go:669-736 | bound already and readable: unchanged; otherwise the new mount on top, or after a failed bind on what 32 detaches leave; topped by the source's top unless both binds failed, with at most one layer more |
| MountOps.PodMounter.RebindTwice | pkg/driver/podmounter.go:656-709 | after a run whose binds succeed every tracked target is bound to the source, and a second run changes no stack |
| MountOps.PodMounter.Unmount | pkg/driver/podmounter.go:913-1005 | running alone: success exactly if at most 32 layers were stacked and the directory goes; an error changes neither binds nor pod nor object nor the source; success forgets the target; a tracked target's source, pod and object go exactly if no other target is tracked under it (else only the list entry goes), an untracked one's exactly if the source is seen still mounted |
| MountOps.PodMounter.UnmountUntilDone | pkg/driver/podmounter.go:913-1005 | with d stacked mounts exactly max(1, ceil(d/32)) calls leave the path bare and untracked, and no path but it and its source changes |
| MountOps.PodMounter.DropDeadPodRefs | pkg/driver/podmounter.go:458-494 | a reference whose path names a live pod or none is kept with its mounts and entry; one that names another pod, can be checked and carries at most 32 mounts is dropped, bare and untracked; without a pod listing nothing happens |
| MountOps.PodMounter.CleanupSource | pkg/driver/podmounter.go:527-574 | any live or unidentifiable reference means a heal with the source and every such reference untouched; no listing means nothing is unmounted; otherwise the source is detached, none of its targets is tracked any more, and no other source's binds or stacks change |
| MountOps.PodMounter.DroppedThenReleased | pkg/driver/podmounter.go:554-568 | dropping dead references first and the source's targets afterwards forgets exactly the source's targets |
| MountOps.PodMounter.ReleaseSource | pkg/driver/podmounter.go:546-574 | the source and its tracked targets are detached and forgotten, all else is unchanged |
| MountAttempts.VolumeMounter.WaitForPodRunning | pkg/driver/podmounter.go:1275-1308 | ready only with a running pod at the last look, fatal only for a terminal pod, a timeout only for one that was neither (or not readable) |
| MountAttempts.VolumeMounter.WaitForMount | pkg/driver/podmounter.go:1310-1351 | ready only when the mount is seen; fatal only for a pod that is gone, terminal or restarted twice; otherwise a timeout |
| MountAttempts.VolumeMounter.ObtainPod | pkg/driver/podmounter.go:816-852 | call by call: a create; if the pod exists a look; a pod neither terminal nor being deleted is reused with no further call; any other is deleted unless that is under way, awaited and created again; each outcome belongs to exactly one such exchange |
| MountAttempts.VolumeMounter.ReplacePod | pkg/driver/podmounter.go:826-841 | a stale pod: a delete unless one is under way, looks until the pod is gone, one create; or looks in vain |
| MountAttempts.VolumeMounter.Mount | pkg/driver/podmounter.go:762-911 | an error leaves binds alone; the target is listed in the object before the pod is asked for; a pod delete is sent only for a pod found terminal, after a fatal wait (even for a reused pod) or for an own pod whose bind failed; a usable pod is reused; a timeout keeps pod and object; the object is deleted only with a pod of its own or after a create error other than AlreadyExists; a pod judged fatal stays unusable |
| MountAttempts.VolumeMounter.Retry | pkg/driver/podmounter.go:854-895 | over any number of attempts whose pod deletes succeed, none reuses a pod that an earlier one judged fatal |
| Healing.ToStringMap | pkg/driver/resources.go:151-168 | exactly the set fields, each under its key as printed |
| Healing.ToUnstructured | pkg/driver/resources.go:170-183 | the same strings, or nothing at all for an empty map |
| Healing.MountResourcesFromUnstructured | pkg/driver/resources.go:185-196 | the string entries parsed, all others ignored |
| Healing.ResourcesRoundTrip | pkg/driver/resources.go:151-196 | storing resources and reading them back keeps every field by value |
| Healing.CreateSpec | pkg/driver/hfmount.go:47-84 | the stored object holds source, arguments and resources of the recipe, the resources key only if some field is set, and no workloads |
| Healing.ReadRecipe | pkg/driver/podmounter.go:598-625 | no recipe without arguments, otherwise source, string arguments and parsed resources of the object |
| Healing.StoredRecipeReadsBack | pkg/driver/podmounter.go:598-625 | whatever became of the workload list, a stored recipe reads back as it was, quantities by value |
| Healing.BuildMountPod | pkg/driver/podmounter.go:1182-1273 | name, node, image, arguments, environment, labels, annotations and host paths one by one, and requirements defaulted by whether an argument says read-only |
| Healing.PodOutcomeMeans | pkg/driver/podmounter.go:816-852 | a usable pod is reused, a done one replaced, and each error has its one cause |
| Healing.Volume.CreateObjects | pkg/driver/podmounter.go:762-816 | the outcome is determined by the calls and by whether there was a pod; an existing object is kept, a new one stores the very recipe the pod is built from, a usable pod is reused, and only a failed first create takes the object away |
| Healing.Volume.TryHealSource | pkg/driver/podmounter.go:576-652 | nothing, a rebind, a rebuilt pod or a failed rebuild exactly as pod, object and calls allow; a usable pod is only rebound; one that does not start is deleted if that call works |
| Healing.HealRebuildsMountPod | pkg/driver/podmounter.go:638-639 | the pod healed from the object Mount created equals the pod Mount built, quantities by value, and such an object never lacks arguments |
| Healing.HealFromExistingObject | pkg/driver/podmounter.go:782-797 | from an object that existed before: equal if and only if source, arguments, limits and effective requests are |
| Healing.OldObjectOldArguments | pkg/driver/podmounter.go:782-797 | an object stored by a Mount without a token file does not give the pod of one with a token file |
| Healing.Volume.HealAfterSecondMount | pkg/driver/podmounter.go:762-852 | two such Mounts in a row, the pod lost between them and after: the heal succeeds with another pod than the second Mount's |
| HFMount.RunMutator | pkg/driver/hfmount.go:98-142 | an add appends exactly one entry with pod, target and time if the target is not listed; a removal drops exactly the target's entries; the stale removal drops exactly entries of dead pods whose time parses and is too long ago; what stays keeps order and multiplicity; reported as changed exactly if the list differs |
| HFMount.AddAppendsOnce | pkg/driver/hfmount.go:98-119 | the add, as applied in any log |
| HFMount.RemoveDropsTarget | pkg/driver/hfmount.go:121-142 | the removal, as applied in any log |
| HFMount.StaleDropsOldDead | pkg/driver/hfmount.go:156-189 | the stale removal, as applied in any log |
| HFMount.MutateDistinct | pkg/driver/hfmount.go:98-189 | no mutator lists a target twice |
| HFMount.StoredListIsFold | pkg/driver/hfmount.go:194-220 | in every interleaving of any number of callers, status writes and deletions, the stored list is the fold of the committed mutators in commit order, its targets distinct |
| HFMount.CallsAreAtomic | pkg/driver/hfmount.go:194-220 | a successful call is one event within its interval, its count and its changed flag right at that point; a failed one has no effect; one that gives up overlapped at least five committed writes |
| HFMount.LogRespectsRealTime | pkg/driver/hfmount.go:194-220 | a call that ends before another begins takes effect before it |
| HFMount.HFMountClient.RetryOnConflict | pkg/driver/hfmount.go:191-220 | the loop as it runs, against arbitrary others between its calls, ends as the machine allows, after at most ten requests, and gives up only after all ten |
| HFMount.HFMountClient.WriteAttempt | pkg/driver/hfmount.go:207-217 | an update commits only the list made from the version it read; a conflict leads to the next attempt, after the fifth to giving up |
| MountinfoText.UnescapeMountPath | pkg/driver/mount_linux.go:56-76 | every backslash with three octal digits of a byte becomes that byte, everything else stays |
| MountinfoText.EscapeRoundTrip | pkg/driver/mount_linux.go:56-76 | unescaping undoes escaping for all byte paths if and only if the set has the backslash or the digits 0 to 3 |
| MountinfoText.EscapeInjective | pkg/driver/mount_linux.go:56-76 | different paths never print alike |
| Mountinfo.BoundToCurrentSource | pkg/driver/mount_linux.go:18-54 | true exactly if the last rows of the two distinct paths name the same device and root and the scan ends without error |
| Mountinfo.ScanRecoversTable | pkg/driver/mount_linux.go:18-54 | on a printed table: true if and only if target and source are distinct, both mounted, their top mounts backed alike, and every line fits the buffer; rows of other paths need only not be read as target or source |
| Mountinfo.ParseFuseMounts | pkg/driver/fuse_mountinfo.go:67-112 | all parsable FUSE rows in order, nothing if the scan fails |
| Mountinfo.FuseScanRecoversTable | pkg/driver/fuse_mountinfo.go:67-112 | on a printed table: exactly its FUSE rows, in order, each with its own minor, mount point, type and source; failing exactly if a line is longer than the 1 MiB buffer |
| Mountinfo.ParseFuseMinor | pkg/driver/fuse_mountinfo.go:17-65 | the first parsable FUSE row with that very text as mount point |
| Mountinfo.FirstMinorOfPrinted | pkg/driver/fuse_mountinfo.go:17-65 | the printed form of a path gives the minor of that path's bottom FUSE mount |
| Mountinfo.FirstMinorOfUnprinted | pkg/driver/fuse_mountinfo.go:17-65 | a text that is no path's printed form gives nothing |
| Mountinfo.FirstMinorAnswers | pkg/driver/fuse_mountinfo.go:17-65 | for every path and table: the bottom FUSE mount of the path whose printed form the path reads like, if there is one |
| Mountinfo.FirstMinorIsOwnBottom | pkg/driver/fuse_mountinfo.go:17-65 | on every table that is the path's own bottom FUSE mount if and only if the kernel escapes nothing in the path |
| Mountinfo.FirstMinorIsOwnTop | pkg/driver/unmount_linux.go:53-65 | for a path printed as it is, on any table: the path's own top FUSE mount exactly if the path's first and last minors agree |
| Mountinfo.EscapedFindsOwnTop | pkg/driver/unmount_linux.go:53-65 | for any other path: exactly if the path it is taken for, always another one, has that minor at its bottom, or is none and nothing is mounted |
| Mountinfo.BottomIsFound | pkg/driver/fuse_mountinfo.go:17-65 | with FUSE mounts of minors 1 and 2 stacked on a path, 1 is found and 2 is on top |
| Mountinfo.OtherPathsMinor | pkg/driver/fuse_mountinfo.go:17-65 | a path with a backslash, on which nothing is mounted, gives the minor of another path |
| Mountinfo.SpacedPathNotFound | pkg/driver/fuse_mountinfo.go:17-65 | a path with a space, tab or newline is never found |
| Mountinfo.SidecarMountInfo | pkg/driver/sidecar_mounter_linux.go:124-137 | the last row whose unescaped mount point is the cleaned target |
| Mountinfo.SidecarMountState | pkg/driver/sidecar_mounter_linux.go:139-148 | unmounted exactly if no row is at the target; ours exactly if the last one has type fuse or fuse.hf-mount and source hf-mount, with its minor; any other is unexpected |
| Mountinfo.SidecarSeesTop | pkg/driver/sidecar_mounter_linux.go:124-137 | on a printed table that row is the mount on top of the target |
| FuseLiveness.MountHasLiveDaemon | pkg/driver/fuse_sweeper.go:203-240 | true exactly if some server serves some mount point, by volume ID in its arguments or by pod UID in its cgroup |
| FuseLiveness.LivenessIsMonotone | pkg/driver/fuse_sweeper.go:203-240 | more servers or mount points never turn alive into dead |
| FuseLiveness.ArgumentShows | pkg/driver/fuse_sweeper_linux.go:175-179 | every argument of a process shows in its rendered command line, however the NULs are trimmed |
| FuseLiveness.VolumeOfSource | pkg/driver/fuse_sweeper.go:259-267 | a source mount is read as its own volume |
| FuseLiveness.DaemonIsSeenAlive | pkg/driver/fuse_sweeper.go:214-267 | for every source type, id, option and target, the process Mount starts makes the test true for any list with the volume's source mount or its kubelet target |
| FuseLiveness.ServedExactly | pkg/driver/fuse_sweeper.go:203-240 | a volume seen by its source mount and its target is judged alive exactly if some process has the volume's path in its arguments or the pod's UID in its cgroup |
| FuseLiveness.ShownByArgument | pkg/driver/fuse_sweeper_linux.go:175-179 | a text without spaces that shows in a command line shows in one argument |
| FuseLiveness.OtherDaemonsDoNotCount | pkg/driver/fuse_sweeper.go:214-230 | a volume whose daemon is gone is judged dead whatever daemons of other volumes run in other pods, unless another of their arguments spells its path |
| FuseLiveness.SidecarIsSeenAlive | pkg/driver/fuse_sweeper.go:269-304 | a daemon in a pod, its UID in the cgroup with dashes or underscores and in any case, makes the test true for any list with a target of that pod |
| FuseLiveness.PodOfTarget | pkg/driver/fuse_sweeper.go:269-286 | a kubelet publish target is read as its own pod's |
| FuseSweeper.Sweeper.Visit | pkg/driver/fuse_sweeper.go:149-188 | a connection that is unreadable, idle, in handoff or served is forgotten; any other is counted, and aborted from the second time on unless an abort has succeeded |
| FuseSweeper.Sweeper.Sweep | pkg/driver/fuse_sweeper.go:126-201 | a failed listing changes nothing; otherwise every foreign, unreadable, idle, handed-over-right-now or served connection is not aborted and forgotten, every other one counted by one, and aborted exactly if that makes two and no abort has succeeded |
| FuseSweeper.Sweeper.PruneStreaks | pkg/driver/fuse_sweeper.go:191-195 | exactly the streaks of unseen minors are forgotten |
| FuseSweeper.Sweeper.Run | pkg/driver/fuse_sweeper.go:111-201 | over any history: the streak is the length of the longest orphaned run at its end, and a minor is aborted in a sweep exactly if that run is then at least two long and no abort of this episode has succeeded |
| FuseSweeper.MemoryIsHistory | pkg/driver/fuse_sweeper.go:126-201 | both maps are functions of the completed sweeps alone |
| FuseSweeper.AbortIsHistory | pkg/driver/fuse_sweeper.go:173-187 | so is the decision to abort |
| FuseSweeper.AbortTakesTwoSweeps | pkg/driver/fuse_sweeper.go:147-188 | an abort takes two completed sweeps in a row in which the connection was ours, had requests waiting, was in no handoff and had no server at any of its mount points |
| FuseSweeper.SweepMeans | pkg/driver/fuse_sweeper.go:147-188 | the next memory and the decision for one minor, check by check |
| FuseSweeper.OrderIrrelevant | pkg/driver/fuse_sweeper.go:147-188 | reordering the connection list changes neither memory nor aborts |
| FuseSweeper.ListOurFuseMounts | pkg/driver/fuse_sweeper_linux.go:63-84 | per minor exactly the mount points of FUSE mounts below the driver's directory or with its source name, in table order |
| FuseSweeper.AbortsAreOurs | pkg/driver/fuse_sweeper.go:242-253 | a connection is aborted only if the kernel's table has a FUSE mount of it that is ours |
| MountArgs.BuildArgs | pkg/driver/mounter.go:45-96 | an error exactly for a type that is neither bucket nor repo; otherwise the daemon reads back from the list the very source, mount point and options |
| MountArgs.ArgsReadBack | pkg/driver/mounter.go:45-96 | reading a built command line (names with values, the extra arguments, three positions, an optional revision) returns exactly what it was built from; a bucket has no revision |
| MountArgs.ReadOnlyFromArgs | pkg/driver/resources.go:68-79 | true exactly if one of the two marker words is an argument |
| MountArgs.ReadOnlyCommandLine | pkg/driver/resources.go:68-79 | on a built list: true if and only if it is a repository, read-only, flagged so, or a free value is a marker word |
| ReadOnlyVerdicts.BuildOptions | pkg/driver/node.go:186-234 | every option from its own attribute, with the two defaults; extra arguments: the group, the request's flags in order, then exactly the listed flags that are not blank, trimmed |
| ReadOnlyVerdicts.SplitJoins | pkg/driver/node.go:227-228 | the parts of a flag list make up the list again and hold no comma |
| ReadOnlyVerdicts.ListedConcat | pkg/driver/node.go:227-234 | listed flags keep their order |
| GoStrings.TrimSpaceMeans | pkg/driver/node.go:229-229 | trimming takes all white space at both ends and nothing else |
| ReadOnlyVerdicts.VolumeIsReadOnly | pkg/webhook/handler.go:179-195 | read-only by request, by source type or by a listed flag |
| ReadOnlyVerdicts.PvMountOptionsReadOnly | pkg/webhook/handler.go:197-207 | true exactly if the option is listed |
| ReadOnlyVerdicts.VerdictsAgree | pkg/webhook/handler.go:179-207 | the driver says read-only if and only if the webhook does or a free value is a marker word; so the webhook's verdict implies the driver's |
| ReadOnlyVerdicts.BucketCalledRepo | pkg/driver/resources.go:72-79 | a writable bucket called "repo" is read-only to the driver alone |
| Resources.MergeMaxResources | pkg/webhook/handler.go:44-54 | per field the larger hint, unset as bottom, the earlier one on a tie |
| Resources.ScanHFCSIVolumes | pkg/webhook/handler.go:133-177 | the count, the first largest hint of every field, the first named log format, and whether all are read-only, of exactly the volumes the sidecar serves |
| Resources.ReadHint | pkg/webhook/handler.go:143-173 | a volume takes part exactly if it, or the volume behind its claim, is this driver's and does not ask for a mount pod; it is read-only by its own, its claim's or its volume's setting, its type or a listed flag |
| Resources.ParseMeans | pkg/driver/resources.go:89-111 | the four hints by their attribute names, blank ones and ones that do not parse unset |
| Resources.HintsOfPermutation | pkg/webhook/handler.go:133-177 | permuted volumes contribute the same hints |
| Resources.ScanIgnoresOrder | pkg/webhook/handler.go:133-177 | count, read-only verdict and merged values do not depend on the order of the volumes |
| Resources.LogFormatIgnoresOrder | pkg/webhook/handler.go:155-157 | the log format does not depend on it if and only if all volumes that name one agree |
| Resources.FirstHintWins | pkg/webhook/handler.go:44-54 | the first volume that sets a field decides it if and only if no other sets a larger value |
| Resources.SecondHintWins | pkg/webhook/handler.go:44-54 | a larger second hint wins over a first one |
| Resources.ClampRequestToLimit | pkg/driver/resources.go:198-214 | a request above its limit becomes the limit, nothing else changes |
| Resources.BuildResourceRequirements | pkg/driver/resources.go:112-149 | limits are exactly the user's, field by field; each request is the wanted one, or the limit where that is smaller |
| Resources.RequestsWithinLimits | pkg/driver/resources.go:112-149 | no request exceeds its limit, and its value is the minimum of the two |
| Resources.Defaults.SetDefaultMemoryRequests | pkg/driver/resources.go:41-57 | both defaults are replaced, or neither if one does not parse |
| Resources.Defaults.SidecarResources | pkg/webhook/sidecar.go:121-121 | the container gets the requirements of the scan; with no hint 10m of CPU and the memory default of read-only volumes exactly if all are |
| Resources.SidecarIgnoresOrder | pkg/webhook/handler.go:133-177 | end to end: the same requests and limits by value for every order of the volumes |
| NodePublish.NodeServer.NodePublishVolume | pkg/driver/node.go:49-252 | refused exactly for a bad request; sidecar mode never stats: a foreign or unreadable target is an error, a mounted one is left alone while its handoff is pending or its sidecar is well and otherwise aborted and detached, a bare one is mounted and tracked; mount-pod mode answers by mount, health and mounter; no other target changes |
| NodePublish.NodeServer.PublishToSidecar | pkg/driver/node.go:101-171 | the sidecar path by what is mounted: reply, abort, mounts and tracking in each case |
| NodePublish.NodeServer.NodeUnpublishVolume | pkg/driver/node.go:254-303 | stats exactly the untracked targets and aborts exactly for tracked ones; reply, mounts and tracking in each case; success leaves a tracked target bare and untracked |
| NodePublish.NodeServer.UnpublishSidecarVolume | pkg/driver/node.go:305-337 | never a stat; success means untracked and bare, failure keeps the tracking |
| NodePublish.NeverStacked | pkg/driver/node.go:97-136 | in every run, restarts included, a target has at most one sidecar mount, at its bottom |
| NodePublish.TrackedUnlessLost | pkg/driver/node.go:97-171 | in every run a sidecar mount is tracked if and only if it is not lost by a restart or by a setup that did not undo it, with no publish having seen it since |
| NodePublish.SidecarIsStatted | pkg/driver/node.go:239-274 | in every run a call stats a sidecar mount if and only if it publishes in mount-pod mode or unpublishes a lost one |
| NodePublish.BindAborts | pkg/driver/node.go:269-337 | over any run: at some point an unpublish of a target would abort the connection of a bind there if and only if a publish in mount-pod mode bound on it while it was tracked; no publish ever does |
| NodePublish.FixedModesNeverBind | pkg/driver/node.go:86-95 | with one mode per target no such bind is made |
| NodePublish.MixedModesAbort | pkg/driver/node.go:305-337 | sidecar publish, detach by others, mount-pod publish of the same target: its unpublish aborts a bind |
| NodePublish.NeverBlocksNeverAbortsBinds | pkg/driver/node.go:239-272 | in any run without restart, with one mode per target, every sidecar mount is tracked, no call stats one, and no abort hits a bind mount |
| NodePublish.ModesApart | pkg/driver/unmount_linux.go:28-41 | tracked targets and sidecar mounts are those of sidecar mode, and none of these carries a bind |
| NodePublish.FailedUnpublishRetries | pkg/driver/node.go:315-337 | a failed unpublish keeps the target tracked so that the retry takes the fast path again; a successful one leaves it bare |
| NodePublish.RepublishRestores | pkg/driver/node.go:123-137 | after a restart one publish of a mounted target restores its tracking, or unmounts it as unhealthy |
| NodePublish.RestartLoses | pkg/driver/node.go:269-274 | publish, restart, unpublish: the target carries a sidecar mount, is lost, and is statted |
| SidecarHandoff.SidecarFuseFdCount | pkg/driver/sidecar_mounter_linux.go:58-83 | the attribute if it is a positive number, else the environment if it is one, else four; at most 32 |
| SidecarHandoff.Plugin.CloneFuseFd | pkg/driver/sidecar_mounter_linux.go:85-100 | a good clone is open once and held; a bad one was closed again |
| SidecarHandoff.Plugin.CloneAll | pkg/driver/sidecar_mounter_linux.go:418-427 | the primary and the clones up to the first failure, all distinct, all still open |
| SidecarHandoff.Plugin.PassFds | pkg/driver/sidecar_mounter_linux.go:405-447 | whether the sidecar never connects, the send fails or it succeeds: every descriptor is closed once, and nothing sent was closed before |
| SidecarHandoff.Plugin.HandOff | pkg/driver/sidecar_mounter_linux.go:375-448 | one message of 1 to 32 descriptors or one recorded error, never both; symlink, listener and connection go on every outcome; the exemption is withdrawn as the last act |
| SidecarHandoff.Plugin.SidecarMount | pkg/driver/sidecar_mounter_linux.go:229-369 | an error at any stage closes the descriptor once, tries to undo the mount and exempts nothing; success leaves one open descriptor to the handoff |
| SidecarHandoff.SetupLog | pkg/driver/sidecar_mounter_linux.go:239-369 | a successful setup opens, mounts, writes instructions, exempts, in this order, and the sidecar reads from the instructions the very source and options, without the host's cache directory and with its own token file |
| SidecarHandoff.Plugin.PublishAndHandOff | pkg/driver/sidecar_mounter_linux.go:229-451 | on every outcome of both: every descriptor the plugin opened is closed exactly once and its exemption is withdrawn; an error is recorded exactly if the mount was made and nothing was sent |
| SidecarHandoff.SetupThenHandoff | pkg/driver/sidecar_mounter_linux.go:229-451 | a setup that opens one descriptor and a handoff that closes it balance |
| SidecarHandoff.ExemptWhileInFlight | pkg/driver/fuse_sweeper.go:40-52 | in any interleaving, a minor is exempt exactly while one of its handoffs is in flight if and only if each that finishes is then the only one |
| SidecarHandoff.OverlapLosesExemption | pkg/driver/fuse_sweeper.go:40-52 | when the first of two finishes, the exemption is gone while the other is still in flight |
| StartupTaint.TaintRemover.WaitForCSINodeDriver | pkg/driver/startup_taint.go:42-65 | seen exactly if some poll lists the driver |
| StartupTaint.TaintRemover.TryRemoveNodeTaint | pkg/driver/startup_taint.go:90-122 | success means the taints found at that moment were replaced by the same list without the key, even if they changed and changed back since the read; it fails exactly if a call does or the list differs |
| StartupTaint.PatchApplied | pkg/driver/startup_taint.go:110-117 | the test-and-replace patch goes through exactly if the list is the one that was read |
| StartupTaint.TaintRemover.RemoveStartupTaint | pkg/driver/startup_taint.go:30-40 | the final taints are everyone's edits replayed in order with at most one removal, the last; no patch, taken or refused, is sent before the driver was seen; on success no taint has the key |
| StartupTaint.WithoutKeepsOthers | pkg/driver/startup_taint.go:100-105 | exactly the taints of the key go, all others with their multiplicity stay |
| StartupTaint.WithoutConcat | pkg/driver/startup_taint.go:100-105 | the others keep their order |

## Left out

- gRPC plumbing, informers, tickers, signals, flag parsing, TLS: they only decide when a step runs, and steps run at any time here.
- System calls, /proc and /sys reads, openat2, chown, socket and SCM_RIGHTS mechanics: arbitrary outcomes.
- SHA-256 is an arbitrary function from targets to volume IDs; quantity parsing and printing are arbitrary functions with one law, that a printed quantity parses to the same value.
- Wall-clock time: a wait is a number of polls. A heal and a stale-workload threshold use an arbitrary clock reading.
- The enumeration of a source's mount references is taken from the mount table: every path it lists shows a superblock of that source.
- Publish targets are taken to lie outside the driver's own mount directory.
- An API call that fails other than by conflict is taken not to have committed.
- Mount propagation into containers and the kernel's teardown of superblocks: a bind shares its backing, and a detached row is gone.
- `NodeMachine` lets Unmount, cleanup and heal interleave step by step; `MountOps` states their exact effect when each runs to completion under its lock. Reading the mount table is one step in both.
- Cleaning up a source also detaches tracked targets whose top layer is a dead superblock, so no claim is made that a live pod's target is never detached then.
- MountAttempts.VolumeMounter.WaitForPodRunning: phase Unknown counts as Pending, since the code treats them alike.
- FuseSweeper.Sweeper.Sweep: the connection directory lists a minor once, as sysfs does.
- FuseLiveness.DaemonIsSeenAlive: volume IDs are non-empty and without slash or NUL, as hexadecimal ones are, and the mount point is spelled without escapes.
- FuseLiveness.OtherDaemonsDoNotCount: volume IDs are names of one length without spaces, as twelve hexadecimal digits are.
- MountArgs.ArgsReadBack: the reader is told how many extra arguments there are, since they are free text; the mount point is absolute, as it is in both places that build a list.
- SidecarHandoff.Plugin.SidecarMount: the undoing unmount is tried, and its own failure is ignored as in the code; the contents of token, socket and symlink are not modelled.
- NodeMachine.StepKeepsInv: mounts and detaches on a target by others than the mounter are not steps.
- NodeMachine.TargetStackIsHolders: nobody outside the mounter mounts or detaches on a target there; on a source's path both happen at any time.
- NodeMachine.RebindAddsNewMount: likewise nobody else touches the target; the source's mounts come and go.
- MountOps.PodMounter.Unmount: runs alone; UnmountPop.TrackedAgain says what others can do to its target's tracking.
- Mountinfo.ScanRecoversTable: in rows of the target and the source themselves no name holds white space other than space, tab and newline (the kernel prints the rest unescaped, and it would split a column); rows of other paths may hold any, as long as they are not read as one of the two.
- Mountinfo.FuseScanRecoversTable: no name in any row holds white space other than space, tab and newline.
- Mountinfo.FirstMinorAnswers: the same holds there and for everything derived from it.
- Mountinfo.SidecarSeesTop: the same.
- NodePublish.TrackedUnlessLost: calls are atomic, as kubelet serialises the operations of one target.
- NodePublish.NeverBlocksNeverAbortsBinds: each target is published in one mode only, which is fixed in its volume context; NodePublish.BindAborts is the exact condition without that.
- ReadOnlyVerdicts.VerdictsAgree: kubelet's step from a claim's and a volume's read-only settings to the request's is taken as it is; both sides see the same flag.
- Resources.ScanHFCSIVolumes: claims and volumes are read from one snapshot of the API server.
- Healing.HealRebuildsMountPod: the operator's default requests are the same at Mount and at heal.
- Mountinfo.SidecarMountInfo: the lexical cleaning of a path is an arbitrary function.
- The stale-object scan, volume-data reconciliation, identity and controller stubs, the injected container's other fields, Helm charts: only easy claims.
