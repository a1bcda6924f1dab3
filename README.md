# virt-handler cgroup managers and SELinux context executor, modelled in Dafny

This project models the part of KubeVirt's `virt-handler` that manages the
control groups (cgroups) of a virtual machine's launcher pod. It also models
the helper that runs a command under a chosen SELinux label.

- **Device rules (`CgroupUtil`).** The tracked allow/deny rules are merged
  with newly requested ones. A current rule is kept unless a requested rule,
  or a rule already kept, has the same (type, major, minor). There is also a
  cached list of default device rules.
- **`virt-chroot` trampoline.** Resources are applied through this
  privileged helper. It is modelled as an argument list plus an outcome
  oracle.
- **Thread listings.** A cgroup's thread file is read and each id is
  resolved to its executable name. The first unparsable or unresolvable
  line fails the whole listing.
- **Cpuset and path helpers.** These read and write the cpuset files and
  rewrite the controller-path map that runc reports.
- **Version dispatch (`Cgroup`).** This builds a v1 or v2 manager from a
  path map or from a process id.
- **The v2 manager (`CgroupV2.V2Manager`).** This is a class whose tracked
  rules, trampoline requests and fake cgroup filesystem change as its
  methods run.
- **Dedicated-CPU setup (`DedicatedCpus`).** This finds the dedicated cgroup
  and the qemu-kvm process. It attaches that process, creates the
  `housekeeping` child cgroup, makes it threaded and lists the vCPU threads.
- **The SELinux `ContextExecutor` (`SELinux`).** It resolves the desired and
  original labels, and runs a command with the desired exec label. Around
  the run it closes every fd from 3 to 255 on exec, and afterwards it
  restores the original label.

The environment is modelled in two ways:

- **Values.** The host filesystem is a `FakeOs.FileSystem`: file contents,
  directories, refused paths, and a log of every write and mkdir. Host facts
  are gathered in values: `Cgroup.Platform` holds the unified-mode flag,
  runc's cgroup-file parser and the constructor error, and `SELinux.Host`
  holds SELinux status, file labels, refused labels and the run error.
- **Traces.** Calls through Go interfaces are recorded as traces. The
  managers the dedicated-CPU helper uses are `DedicatedCpus.Manager`
  objects. Each knows the cgroup it handles (compute, dedicated, or a child
  of another) and records every call it receives, under that cgroup, in a
  log shared by all managers of a host. The `Executor` calls are recorded in
  `SELinux.Executor`. The properties are stated over those traces.

Some facts about the code that the model keeps:

- `formatCgroupPaths` always writes the `""` entry in unified mode, even
  when it was absent, so the keys grow by `""`.
- `Set` takes no lock.
- A thread whose executable cannot be resolved fails the whole listing.
- The dedicated-CPU helper moves only the qemu-kvm process. It does not
  pin any CPU to the housekeeping cgroup.

## Model

| member | source | states |
|---|---|---|
| CgroupUtil.IsCurrentRulePartOfRequestedRules | pkg/virt-handler/cgroup/util.go:96-103 | true exactly when some rule in the slice has the rule's type, major and minor |
| CgroupUtil.AddCurrentRules | pkg/virt-handler/cgroup/util.go:88-112 | nil current rules return the requested slice unchanged; nil requested rules are an error; otherwise the requested rules come first, followed by the kept current rules |
| CgroupUtil.MergedIds | pkg/virt-handler/cgroup/util.go:105-111 | a merge revokes no identity: the merged identities are the union of both inputs' identities |
| CgroupUtil.AppendStep | pkg/virt-handler/cgroup/util.go:105-109 | one more current rule is appended exactly when no rule already in the growing result has its identity |
| CgroupUtil.KeptCurrentFacts | pkg/virt-handler/cgroup/util.go:105-111 | kept rules come from the current ones, none shares an identity with a requested rule or another kept rule, and there are no more of them than current rules |
| CgroupUtil.KeptCurrentAll | pkg/virt-handler/cgroup/util.go:105-109 | current rules with distinct identities that no requested rule covers are all kept, in order |
| CgroupUtil.DocumentedMerge | pkg/virt-handler/cgroup/util.go:78-87 | the documented example: a requested deny of 222:222 over current allows of 111:111 and 222:222 gives the deny followed by the 111:111 allow |
| CgroupUtil.RepeatedCurrentKeptOnce | pkg/virt-handler/cgroup/util.go:105-109 | of two current rules with the same uncovered identity only the first is kept |
| CgroupUtil.DefaultRules | pkg/virt-handler/cgroup/util.go:129-181 | 21 char-device allow rules with the given permissions: ptmx, null, kvm, tun and vhost-net, then the PTY majors 136 to 151 with any minor |
| CgroupUtil.DefaultRulesDistinct | pkg/virt-handler/cgroup/util.go:129-181 | no two default rules share an identity |
| CgroupUtil.DefaultRulesIds | pkg/virt-handler/cgroup/util.go:122-127 | the v1/v2 choice of permissions does not change which devices are allowed |
| CgroupUtil.DefaultRulesCache.constructor | pkg/virt-handler/cgroup/util.go:53-55 | the cache starts empty |
| CgroupUtil.DefaultRulesCache.GenerateDefaultDeviceRules | pkg/virt-handler/cgroup/util.go:114-186 | the first call fills the cache with the default rules for the mode; later calls return the cached rules unchanged, whatever mode is asked for |
| CgroupUtil.VirtChrootArgs | pkg/virt-handler/cgroup/util.go:201-207 | seven arguments: the set-cgroups-resources subcommand, then the subsystem paths, resources, rootless flag and version behind their flags |
| CgroupUtil.VirtChrootArgsInjective | pkg/virt-handler/cgroup/util.go:201-207 | the argument list determines the resources, paths, rootless flag and version |
| CgroupUtil.ExecVirtChrootCgroups | pkg/virt-handler/cgroup/util.go:190-219 | succeeds exactly when the helper run with those arguments succeeds, and otherwise reports the helper's output |
| CgroupUtil.ThreadsMatchingOk | pkg/virt-handler/cgroup/util.go:240-258 | a listing succeeds exactly when every line parses and resolves, and then has at most one id per line |
| CgroupUtil.ThreadsMatchingSound | pkg/virt-handler/cgroup/util.go:240-258 | every listed id comes from a line whose executable passes the filter |
| CgroupUtil.ThreadsMatchingCompleteAt | pkg/virt-handler/cgroup/util.go:240-258 | in a successful listing, line i resolves, and its id is listed when its executable passes the filter |
| CgroupUtil.ThreadsMatchingComplete | pkg/virt-handler/cgroup/util.go:240-258 | every line whose executable passes the filter has its id listed |
| CgroupUtil.ThreadsMatchingNoneKept | pkg/virt-handler/cgroup/util.go:240-258 | when every line resolves and none passes the filter, the listing is an empty success |
| CgroupUtil.ThreadsMatchingAll | pkg/virt-handler/cgroup/util.go:222-224 | with the nil filter every line's id is listed, in file order |
| CgroupUtil.ThreadsMatchingFirst | pkg/virt-handler/cgroup/util.go:240-258 | the first listed id is that of the first line whose executable passes the filter |
| CgroupUtil.ThreadsMatchingErrPersists | pkg/virt-handler/cgroup/util.go:242-252 | once a prefix of the file fails, the later lines do not change the error |
| CgroupUtil.GetCgroupThreadsHelper | pkg/virt-handler/cgroup/util.go:221-266 | the subsystem-path error, or the listing of the thread file under the subsystem path, filtered by the filter or by nothing when it is nil |
| CgroupUtil.SetCpuSetHelper | pkg/virt-handler/cgroup/util.go:270-282 | a path or format error leaves the filesystem alone; otherwise exactly one write of the formatted list to cpuset.cpus, which fails only if the host refuses it |
| CgroupUtil.GetCpuSetList | pkg/virt-handler/cgroup/util.go:338-356 | the subsystem-path error, or the read error of the cpuset file |
| CgroupUtil.FormatV1Path | pkg/virt-handler/cgroup/util.go:305-324 | an empty v1 path stays empty; any other path is rewritten to one that holds a '/' |
| CgroupUtil.FormattedPaths | pkg/virt-handler/cgroup/util.go:294-328 | unified mode rewrites only the "" entry, adds it when absent and puts it under /sys/fs/cgroup; v1 keeps the keys, keeps empty paths, and rewrites every other path to one holding a '/' |
| CgroupUtil.FormatUnifiedRootPath | pkg/virt-handler/cgroup/util.go:295-298 | the unified root "/" becomes /sys/fs/cgroup itself |
| CgroupUtil.FormatV1RootPath | pkg/virt-handler/cgroup/util.go:305-321 | a v1 controller at the root "/" stays at "/" |
| CgroupUtil.V1RelativePathKept | pkg/virt-handler/cgroup/util.go:305-324 | a v1 path that names its subsystem, holds a '/' and contains no cgroup root is left unchanged |
| CgroupUtil.V1PathGetsSubsystem | pkg/virt-handler/cgroup/util.go:310-318 | a v1 path that contains no cgroup root and does not name its subsystem becomes the subsystem, a '/', and the path without its leading slashes |
| CgroupUtil.UnifiedPathUnderCgroupRoot | pkg/virt-handler/cgroup/util.go:295-303 | the rewritten unified path always lies under /sys/fs/cgroup |
| CgroupUtil.HostRootBranchUnreachable | pkg/virt-handler/cgroup/util.go:297-301 | a path under /sys/fs/cgroup never starts with /proc/1/root, so the host-root branch never runs |
| CgroupUtil.FormatUnifiedPathIdempotent | pkg/virt-handler/cgroup/util.go:295-303 | rewriting an already rewritten unified path changes nothing |
| CgroupUtil.V1HostPathRelativised | pkg/virt-handler/cgroup/util.go:305-324 | a v1 path under the host's cgroup root loses that prefix when the rest already names the subsystem and holds a slash |
| CgroupUtil.FormatCgroupPaths | pkg/virt-handler/cgroup/util.go:294-328 | the map is rewritten in place into the formatted paths |
| Cgroup.TaskType.Value | pkg/virt-handler/cgroup/cgroup.go:42-47 | Thread is 0 and Process is 1 |
| Cgroup.NewManagerFromPath | pkg/virt-handler/cgroup/cgroup.go:91-114 | unified mode gives a v2 manager on the rewritten "" path, which lies under /sys/fs/cgroup; otherwise a v1 manager on the rewritten map with the same keys; fails exactly when the constructor does, with its error |
| Cgroup.CgroupFilePathSpelled | pkg/virt-handler/cgroup/cgroup.go:117 | the cgroup file of pid n is /proc/n/cgroup |
| Cgroup.NewManagerFromPid | pkg/virt-handler/cgroup/cgroup.go:116-125 | a parse failure of /proc/pid/cgroup is wrapped as an initialisation error; otherwise the result is the manager built from the parsed paths |
| Cgroup.GetGlobalCpuSetPath | pkg/virt-handler/cgroup/cgroup.go:144-149 | /sys/fs/cgroup/cpuset.cpus.effective on v2, /sys/fs/cgroup/cpuset/cpuset.cpus on v1 |
| Cgroup.GetCpuSetPath | pkg/virt-handler/cgroup/cgroup.go:151-164 | the path or read error, or the file's content with surrounding white space removed and nothing else |
| Cgroup.CpuSetListParsesCpuSetPath | pkg/virt-handler/cgroup/util.go:338-356 | the cpuset list is the parse of exactly the trimmed content, with a 5000-element limit |
| CgroupV2.SubsystemPaths | pkg/virt-handler/cgroup/cgroup_v2_manager.go:82-89 | the target is the cgroup directory; the parent is added exactly for a crun "container" leaf under a .scope directory |
| CgroupV2.CrunContainerPaths | pkg/virt-handler/cgroup/cgroup_v2_manager.go:85-89 | for a crun container leaf the map names the leaf and its scope |
| CgroupV2.OtherLeafPaths | pkg/virt-handler/cgroup/cgroup_v2_manager.go:82-89 | any other leaf yields the target alone |
| CgroupV2.ChildCgroupOps | pkg/virt-handler/cgroup/cgroup_v2_manager.go:114-139 | creating a child takes four filesystem operations |
| CgroupV2.ChildCgroupOpsCreateDir | pkg/virt-handler/cgroup/cgroup_v2_manager.go:114-139 | when all of them succeed, the child directory exists |
| CgroupV2.CpuWeightRoundTrip | pkg/virt-handler/cgroup/cgroup_v2_manager.go:173-213 | a positive weight written by SetCpuWeight reads back as the same weight |
| CgroupV2.V2Manager.constructor | pkg/virt-handler/cgroup/cgroup_v2_manager.go:44-59 | the manager is on the "" path; it tracks the given rules followed by the default rules, filling the default cache on first use; no trampoline request yet |
| CgroupV2.V2Manager.GetBasePathToHostSubsystem | pkg/virt-handler/cgroup/cgroup_v2_manager.go:61-63 | every subsystem resolves to the manager's directory |
| CgroupV2.V2Manager.GetCgroupVersion | pkg/virt-handler/cgroup/cgroup_v2_manager.go:95-97 | always v2 |
| CgroupV2.V2Manager.Set | pkg/virt-handler/cgroup/cgroup_v2_manager.go:65-93 | nil devices fail and change nothing; otherwise the tracked rules become the merge, which revokes no identity, and are stored even when the trampoline then fails; one trampoline request carries the merged rules and the subsystem paths; its outcome is the result |
| CgroupV2.V2Manager.GetCpuSet | pkg/virt-handler/cgroup/cgroup_v2_manager.go:99-101 | the trimmed content of cpuset.cpus.effective, and an error exactly when it is missing |
| CgroupV2.V2Manager.CreateChildCgroup | pkg/virt-handler/cgroup/cgroup_v2_manager.go:103-142 | an existing child leaves the filesystem untouched; otherwise the subtree write, mkdir and the two child writes run in order, stopping at the first refused one, whose path is the error; after an existing child or all four steps, the result is the child manager or the error building it reports; success means the child directory exists |
| CgroupV2.V2Manager.AttachTID | pkg/virt-handler/cgroup/cgroup_v2_manager.go:146-163 | exactly one write of the id to cgroup.threads of the sub-cgroup, or of the manager's own directory for an empty name |
| CgroupV2.V2Manager.GetCgroupThreads | pkg/virt-handler/cgroup/cgroup_v2_manager.go:165-167 | every id in cgroup.threads, each one parsed from a line of the file |
| CgroupV2.V2Manager.SetCpuSet | pkg/virt-handler/cgroup/cgroup_v2_manager.go:169-171 | a format error changes nothing; otherwise one write of the formatted list to the manager's cpuset.cpus |
| CgroupV2.V2Manager.GetCpuWeight | pkg/virt-handler/cgroup/cgroup_v2_manager.go:173-191 | the trimmed cpu.weight as a 64-bit integer, or -1 with the read or format error |
| CgroupV2.V2Manager.SetCpuWeight | pkg/virt-handler/cgroup/cgroup_v2_manager.go:193-213 | non-positive weights are refused without touching the filesystem; otherwise one write to cpu.weight of the sub-cgroup, which then reads back as the weight |
| DedicatedCpus.CmdlinePathSpelled | pkg/virt-handler/cgroup/dedicated_cpus.go:34 | the command line of pid n is read from /proc/n/cmdline |
| DedicatedCpus.ScanForCmdlineOutcome | pkg/virt-handler/cgroup/dedicated_cpus.go:30-47 | the scan stops at the first process whose command line is unreadable, which is an error, or contains the sleep value, whose pid is taken; with no match the pid stays 0 |
| DedicatedCpus.GetDedicatedCpuCgroupManager | pkg/virt-handler/cgroup/dedicated_cpus.go:17-56 | the loop's result equals the scan specification: the process-list error, the read error, or the manager of the matched pid |
| DedicatedCpus.QemuKvmPidOf | pkg/virt-handler/cgroup/dedicated_cpus.go:58-78 | the listing error or "not found" with -1, otherwise the first listed id |
| DedicatedCpus.QemuKvmPidIsFirstMatch | pkg/virt-handler/cgroup/dedicated_cpus.go:61-77 | the chosen pid is that of the first thread whose executable contains "qemu-kvm" |
| DedicatedCpus.QemuKvmNotFound | pkg/virt-handler/cgroup/dedicated_cpus.go:66-70 | when every thread resolves and none is qemu-kvm, the result is -1 with "not found" |
| DedicatedCpus.VcpuTidsOf | pkg/virt-handler/cgroup/dedicated_cpus.go:80-89 | the listing's ids as a non-nil slice, or nil with the listing error |
| DedicatedCpus.VcpuTidsAreVcpuThreads | pkg/virt-handler/cgroup/dedicated_cpus.go:81-82 | exactly the threads whose executable contains both "CPU " and "KVM" are returned |
| DedicatedCpus.QemuKvmNameFilters | pkg/virt-handler/cgroup/dedicated_cpus.go:61-81 | a step of the counterexample in `HelperSucceedsWithManager`: the one name qemu-kvm passes the qemu filter and not the vCPU one (the general facts about both filters are `QemuKvmPidIsFirstMatch` and `VcpuTidsAreVcpuThreads`) |
| DedicatedCpus.CallLog.constructor | pkg/virt-handler/cgroup/cgroup.go:54-81 | no manager call has been made yet |
| DedicatedCpus.Manager.constructor | pkg/virt-handler/cgroup/cgroup.go:54-81 | a manager for the given cgroup, on the given host, logging to the given log |
| DedicatedCpus.Manager.GetCgroupThreadsWithFilter | pkg/virt-handler/cgroup/dedicated_cpus.go:62 | one listing call logged under this manager's cgroup; the result is the filtered listing of this cgroup's thread file |
| DedicatedCpus.Manager.AttachTask | pkg/virt-handler/cgroup/cgroup.go:73-75 | one attach call logged under this manager's cgroup, with the host's outcome for it |
| DedicatedCpus.Manager.CreateChildCgroup | pkg/virt-handler/cgroup/cgroup.go:70-71 | one create call logged under this manager's cgroup; on success a new manager for the named child of this cgroup, on the same host and log, and nil exactly on error |
| DedicatedCpus.Manager.MakeThreaded | pkg/virt-handler/cgroup/cgroup.go:80 | one call logged under this manager's cgroup, with the host's outcome for it |
| DedicatedCpus.GetQemuKvmPid | pkg/virt-handler/cgroup/dedicated_cpus.go:58-78 | one filtered listing call on the compute manager, and its first match |
| DedicatedCpus.GetVcpuTids | pkg/virt-handler/cgroup/dedicated_cpus.go:80-89 | one filtered listing call on the compute manager, and its vCPU threads |
| DedicatedCpus.CallsSpec | pkg/virt-handler/cgroup/dedicated_cpus.go:102-131 | the manager calls are a prefix of: list qemu on the compute cgroup, attach qemu as a process to the dedicated cgroup, create its housekeeping cpuset child, make that child threaded, list vCPUs on the compute cgroup; each runs only if every earlier one succeeded (a later call implies that the attach, the child creation and MakeThreaded reported no error), and the first error, from the cgroup that received the call, ends them |
| DedicatedCpus.CallsStopAtFirstError | pkg/virt-handler/cgroup/dedicated_cpus.go:102-124 | the number of calls made is exactly the position of the first failing step, in both directions; fewer than five calls means an error |
| DedicatedCpus.CallsAttachOnlyQemu | pkg/virt-handler/cgroup/dedicated_cpus.go:108 | the only task attached is the qemu-kvm process, to whichever dedicated cgroup is given; no vCPU thread is attached |
| DedicatedCpus.CallsReceivers | pkg/virt-handler/cgroup/dedicated_cpus.go:102-126 | listings go to the compute manager, the attach and the child creation to the dedicated manager, and MakeThreaded to the housekeeping child |
| DedicatedCpus.RunManagerCalls | pkg/virt-handler/cgroup/dedicated_cpus.go:102-131 | given a compute and a dedicated manager on one host, the calls logged and the results match the call specification; MakeThreaded goes to the manager that CreateChildCgroup returned |
| DedicatedCpus.HelperSpec | pkg/virt-handler/cgroup/dedicated_cpus.go:91-131 | a non-dedicated VMI, or a failure to find the dedicated manager, fails before any manager call; otherwise the calls go to the dedicated cgroup found, and a success makes all five calls and returns a non-nil vCPU slice |
| DedicatedCpus.DedicatedCpuSteps | pkg/virt-handler/cgroup/dedicated_cpus.go:91-131 | the steps of the helper run in order and match the helper specification; a new manager for the dedicated cgroup found shares the compute manager's host and log |
| DedicatedCpus.DedicatedCpuHelper | pkg/virt-handler/cgroup/dedicated_cpus.go:91-132 | as written: the steps match the specification, but the returned manager is always nil, even on success |
| DedicatedCpus.HelperSucceedsWithManager | pkg/virt-handler/cgroup/dedicated_cpus.go:91-131 | a dedicated VMI whose compute cgroup holds one qemu-kvm thread 7 gets through every step with the dedicated cgroup found |
| DedicatedCpus.DedicatedCpuHelperFixed | pkg/virt-handler/cgroup/dedicated_cpus.go:91-132 | corrected: on success the returned manager handles the dedicated cgroup found |
| SELinux.CloseRangeCloses | pkg/virt-handler/selinux/context_executor.go:122-128 | the range marks close-on-exec for exactly the fds from lo up to hi |
| SELinux.LabelFor | pkg/virt-handler/selinux/context_executor.go:114-120 | the label at /proc/pid/attr/current, or an error naming the pid when there is none |
| SELinux.Construction | pkg/virt-handler/selinux/context_executor.go:51-79 | refused exactly when there is neither a pid nor a label; without SELinux the labels stay empty; with it, both labels are resolved (the desired one from the pid only when no label was given) and any lookup failure is the error |
| SELinux.Execution | pkg/virt-handler/selinux/context_executor.go:81-107 | with SELinux the thread is locked and the desired label set first; a refused label stops there; otherwise the original label is restored and the thread unlocked after the run, whatever the run's outcome; without SELinux there are no lock or label calls; a failed run is reported with the pid |
| SELinux.ExecutionClosesFdsBeforeRun | pkg/virt-handler/selinux/context_executor.go:89-90 | every fd from 3 to 255, and no other, is marked close-on-exec, in order, right before the run |
| SELinux.ContextExecutor.constructor | pkg/virt-handler/selinux/context_executor.go:58-62 | the executor holds the command, the pid and the executor, with empty labels |
| SELinux.ContextExecutor.IsSELinuxEnabled | pkg/virt-handler/selinux/context_executor.go:109-112 | one NewSELinux call; enabled exactly when it reports enabled without error |
| SELinux.ContextExecutor.GetLabelForPid | pkg/virt-handler/selinux/context_executor.go:114-120 | one FileLabel call on /proc/pid/attr/current, and its outcome |
| SELinux.ContextExecutor.SetDesiredContext | pkg/virt-handler/selinux/context_executor.go:96-102 | the thread is locked, then the desired label set; fails exactly when the label is refused |
| SELinux.ContextExecutor.ResetContext | pkg/virt-handler/selinux/context_executor.go:104-107 | the original label is set, then the thread unlocked, even when setting fails |
| SELinux.ContextExecutor.PreventFdLeakOntoChild | pkg/virt-handler/selinux/context_executor.go:122-128 | one CloseOnExec per fd from 3 up to 255, in order |
| SELinux.ContextExecutor.Execute | pkg/virt-handler/selinux/context_executor.go:81-94 | the calls and the result are those of the execution specification |
| SELinux.NewContextExecutor | pkg/virt-handler/selinux/context_executor.go:51-79 | the calls and the outcome are those of the construction specification; a new executor holds the resolved labels |
| SELinux.NewContextExecutorFromPid | pkg/virt-handler/selinux/context_executor.go:41-44 | construction from a pid with no label |
| SELinux.NewContextExecutorWithLabel | pkg/virt-handler/selinux/context_executor.go:46-49 | construction from a label with the empty pid -1 |
| SELinux.WithLabelKeepsLabel | pkg/virt-handler/selinux/context_executor.go:46-79 | an empty label with no pid is refused; a given label is used as the desired label unchanged |

## Left out

- **Go stdlib models.** `Text` and `Paths` model `strings`, `strconv` and
  `path/filepath` only as far as the paths used here need. `Join` drops the
  slashes where its two parts meet and turns two all-slash parts into "/",
  but does not resolve "." or "..", does not collapse a '//' inside a part,
  and returns a lone non-empty part as given.
- Text.IsSpace: covers only the Latin-1 white space. Go's `TrimSpace` also
  trims U+1680, U+2000 to U+200A, U+2028, U+2029, U+202F, U+205F and U+3000.
- **Integer width.** Go `int` is modelled as an unbounded integer. The one
  exception is `strconv.Atoi`, which is bounded to 64 bits.
- **The `virt-chroot` process run.** The spawn, its JSON and base64
  encoding of the resources, and its output capture are an oracle
  parameter: it takes the command and arguments and returns the failure
  output, if any.
- **runc internals.**
  - runc's managers and their constructors are left out, and the
    constructor's failure is a `Platform` oracle.
  - `ParseCgroupFile` is an oracle.
  - `IsCgroup2UnifiedMode` is the `unified` flag.
  - `ParseCPUSetFormatted`, `ParseCPUSetLine` and the cpuset formatter are
    `parse` and `format` parameters.
- **Other managers.** The v1 manager (`newV1Manager`) and the managers
  built from a child cgroup or from a VMI (`newManagerFromChildCgroup`,
  `NewManagerFromVM` and its isolation detection) are not part of this
  model. In `CgroupV2.V2Manager.CreateChildCgroup` the error that
  `newManagerFromChildCgroup` may report is the `childError` parameter.
  `MakeThreaded` is only a recorded call with an outcome.
- **Process lookup.** `ps.Processes` is a process-list parameter. A
  process that `ps.FindProcess` cannot find is a lookup error; in Go it
  would be a nil dereference.
- **The sleep value.** The VMI's unique sleep value is given as a number.
  Its computation is not part of this model.
- **The Manager interface.** The Go interface is modelled by the
  `DedicatedCpus.Manager` class, whose host outcomes come from a
  `CgroupHost` value. Only the calls the dedicated-CPU helper makes are
  modelled there.
- **Signature mismatches in the source.** The source does not compile as
  given. The model resolves each mismatch as follows:
  - `newV2Manager` takes a config and a path (cgroup_v2_manager.go:30) but
    is called with the path only (cgroup.go:99); the model follows the call.
  - `CreateChildCgroup` is variadic in the interface (cgroup.go:71), but
    the v2 method takes one subsystem (cgroup_v2_manager.go:103), and the
    helper passes one (dedicated_cpus.go:114); the model takes one.
  - `setCpuSetHelper` takes two arguments (util.go:270) but is called with
    three (cgroup_v2_manager.go:170); the model follows the definition and
    ignores the sub-cgroup.
  - `getCgroupThreadsHelper` takes a filter (util.go:221) but is called
    without one (cgroup_v2_manager.go:166); the model passes the nil filter.
  - `getCpuSetPath` is defined twice, returning a string (cgroup.go:151)
    and a parsed list (util.go:338); the model keeps both, as
    `Cgroup.GetCpuSetPath` and `CgroupUtil.GetCpuSetList`.
- DedicatedCpus.Manager.GetCgroupThreadsWithFilter: this method is defined
  nowhere in the source and is not in the `Manager` interface. The model
  assumes it lists threads as `getCgroupThreadsHelper` does, so
  `DedicatedCpus.QemuKvmPidIsFirstMatch` and
  `DedicatedCpus.VcpuTidsAreVcpuThreads` rest on that assumption.
- **Pointers.** Device rules are values, not `*devices.Rule` pointers. The
  aliasing of the caller's rules with the tracked rules
  (cgroup_v2_manager.go:73) is not modelled. A nil rule in the slice, which
  makes the comparison closure at util.go:98 panic, cannot be expressed.
- CgroupV2.V2Manager.SetCpuSet: the `subcgroup` argument is not used. This
  follows `setCpuSetHelper`, which writes to the manager's own directory.
- CgroupV2.V2Manager.GetCpuWeight: reads only the manager's own cpu.weight,
  as the source does.
- Cgroup.NewManagerFromPath: in-place rewriting of the caller's map is not
  modelled as aliasing (`CgroupUtil.FormatCgroupPaths` models it separately
  on a `PathMap`). A manager that Go returns together with an error is not
  modelled.
- **Filesystem writes.** A write replaces a fake file's content, so a
  written value reads back as the literal text. The kernel treats some
  cgroup files differently, and this is not modelled. A write to
  `cgroup.threads` adds a thread rather than replacing the list. A
  `"+cpuset"` write to `cgroup.subtree_control` (cgroup_v2_manager.go:116,
  136) enables a controller in the set rather than replacing its content.
- **Scanner errors.** `bufio.Scanner` errors are not modelled: a file
  is read as a string. In Go, a line longer than 64 KiB stops the scan
  with `ErrTooLong`, and a read from the `os.File` can fail.
- **Logging.** It is not modelled.
- **SELinux host facts.** `os.Getpid` is the `ownPid` parameter. The
  operating-system thread that `LockOSThread` pins, and the real label and
  close-on-exec calls, are trace events with `Host` outcomes.
- SELinux.ContextExecutor.Execute: `resetContext` runs deferred and its
  error is dropped, as in the source; the model records its calls only.

## Findings

| source | as written | input that shows it | evidently intended | confidence | as-written member | corrected member |
|---|---|---|---|---|---|---|
| pkg/virt-handler/cgroup/dedicated_cpus.go:91-131 | the manager found at line 97 is stored in the local `dedicatedCpusCgroupManager`; the named result `dedicatedCpuManager` is never assigned, so the helper returns a nil manager even on success | a CPU-dedicated VMI whose dedicated cgroup is found and whose compute cgroup lists one thread 7 running qemu-kvm; every manager call succeeds | return the dedicated manager on success | not executed | DedicatedCpus.DedicatedCpuHelper, DedicatedCpus.HelperSucceedsWithManager | DedicatedCpus.DedicatedCpuHelperFixed |
