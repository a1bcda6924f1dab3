/** dedicated_cpus.go: moving a VMI's emulator into its dedicated-CPU
    cgroup. The dedicated cgroup is found through a helper process whose
    command line carries the VMI's unique value; the qemu-kvm process and the
    vCPU threads are picked out of the compute container's thread list by the
    name of their executable. */
module DedicatedCpus {
  import opened Wrappers
  import opened Text
  import opened Paths
  import opened FakeOs
  import opened CgroupUtil
  import opened Cgroup

  /** The parts of a VMI the helper looks at. `bigUniqueValue` is what
      `services.CalculateBigUniqueValueForVmi` yields for it. */
  datatype Vmi = Vmi(name: string, cpuDedicated: bool, bigUniqueValue: int)

  // ---- finding the dedicated cgroup ------------------------------------------

  /** /proc/<pid>/cmdline, as joined from "/", "proc", the pid and "cmdline". */
  function CmdlinePath(pid: int): string {
    Join(Join(Join("/", "proc"), Itoa(pid)), "cmdline")
  }

  lemma CmdlinePathSpelled(pid: int)
    ensures CmdlinePath(pid) == "/proc/" + Itoa(pid) + "/cmdline"
  {
    var d := Itoa(pid);
    ItoaHasNoSlashNorSpace(pid);
    assert Join("/", "proc") == "/proc";
    assert TrimLeadingSlashes(d) == d;
    var a := "/proc/" + d;
    assert Join("/proc", d) == a;
    assert a[|a| - 1] == d[|d| - 1];
    assert TrimTrailingSlashes(a) == a;
  }

  /** The pid the scan settles on: the first process whose command line holds
      `needle`, or 0 when none does. The first unreadable command line met on
      the way ends the scan with its error. */
  function ScanForCmdline(pids: seq<int>, files: map<string, string>, needle: string): Result<int>
    decreases |pids|
  {
    if pids == [] then Ok(0)
    else
      var path := CmdlinePath(pids[0]);
      if path !in files then Err(NotExist(path))
      else if Contains(files[path], needle) then Ok(pids[0])
      else ScanForCmdline(pids[1..], files, needle)
  }

  /** The scan stops at the first process whose command line is unreadable
      or holds `needle`; every process before it was readable and did not
      match. Running off the end yields pid 0, not an error. */
  lemma {:induction false} ScanForCmdlineOutcome(pids: seq<int>, files: map<string, string>, needle: string) returns (k: nat)
    ensures k <= |pids|
    ensures forall j :: 0 <= j < k ==> CmdlinePath(pids[j]) in files && !Contains(files[CmdlinePath(pids[j])], needle)
    ensures k == |pids| ==> ScanForCmdline(pids, files, needle) == Ok(0)
    ensures k < |pids| && CmdlinePath(pids[k]) !in files ==>
      ScanForCmdline(pids, files, needle) == Err(NotExist(CmdlinePath(pids[k])))
    ensures k < |pids| && CmdlinePath(pids[k]) in files ==>
      Contains(files[CmdlinePath(pids[k])], needle) && ScanForCmdline(pids, files, needle) == Ok(pids[k])
    decreases |pids|
  {
    if pids == [] {
      return 0;
    }
    var path := CmdlinePath(pids[0]);
    if path !in files || Contains(files[path], needle) {
      return 0;
    }
    var k' := ScanForCmdlineOutcome(pids[1..], files, needle);
    k := k' + 1;
  }

  /** The manager `getDedicatedCpuCgroupManager` yields: the process table
      (or its error), the scan for the VMI's unique value, then a manager
      built from the chosen pid's cgroup file. */
  function DedicatedManagerOf(uniqueValue: int, procs: Result<seq<int>>, files: map<string, string>,
                              platform: Platform): Result<ManagerHandle>
  {
    if procs.Err? then Err(procs.error)
    else
      match ScanForCmdline(procs.value, files, Itoa(uniqueValue))
      case Err(e) => Err(e)
      case Ok(pid) => NewManagerFromPid(pid, platform)
  }

  /** `getDedicatedCpuCgroupManager`: scans the process table in order and
      stops at the first command line holding the VMI's unique value. */
  method GetDedicatedCpuCgroupManager(vmi: Vmi, procs: Result<seq<int>>, fs: FileSystem, platform: Platform)
    returns (r: Result<ManagerHandle>)
    ensures r == DedicatedManagerOf(vmi.bigUniqueValue, procs, fs.state.files, platform)
  {
    var needle := Itoa(vmi.bigUniqueValue);
    if procs.Err? {
      return Err(procs.error);
    }
    var pids := procs.value;
    var sleepProcPid := 0;
    var i := 0;
    while i < |pids|
      invariant 0 <= i <= |pids|
      invariant ScanForCmdline(pids, fs.state.files, needle) == ScanForCmdline(pids[i..], fs.state.files, needle)
    {
      assert pids[i..][0] == pids[i] && pids[i..][1..] == pids[i + 1..];
      var cmdline := fs.ReadFile(CmdlinePath(pids[i]));
      if cmdline.Err? {
        return Err(cmdline.error);
      }
      if Contains(cmdline.value, needle) {
        sleepProcPid := pids[i];
        break;
      }
      i := i + 1;
    }
    assert ScanForCmdline(pids, fs.state.files, needle) == Ok(sleepProcPid);
    r := NewManagerFromPid(sleepProcPid, platform);
  }

  // ---- picking threads by executable -------------------------------------------

  /** The two thread filters the helper asks the compute manager for. */
  datatype ThreadFilter = QemuKvmThreads | VcpuThreads

  predicate QemuKvmFilter(executable: string) {
    Contains(executable, "qemu-kvm")
  }

  /** vCPU threads are named like "CPU 0/KVM". */
  predicate VcpuFilter(executable: string) {
    Contains(executable, "CPU ") && Contains(executable, "KVM")
  }

  function Keep(filter: ThreadFilter): string -> bool {
    match filter
    case QemuKvmThreads => s => QemuKvmFilter(s)
    case VcpuThreads => s => VcpuFilter(s)
  }

  /** `getQemuKvmPid`'s choice among the filtered ids: the first one; -1 with
      an error when the listing failed or found nothing. */
  function QemuKvmPidOf(listing: Result<seq<int>>): (r: (int, Option<Error>))
    ensures r.1.Some? ==> r.0 == -1
    ensures listing.Err? ==> r.1 == Some(listing.error)
    ensures listing == Ok([]) ==> r.1 == Some(QemuNotFound)
    ensures r.1.None? <==> listing.Ok? && listing.value != []
    ensures r.1.None? ==> r.0 == listing.value[0]
  {
    if listing.Err? then (-1, Some(listing.error))
    else if |listing.value| == 0 then (-1, Some(QemuNotFound))
    else (listing.value[0], None)
  }

  /** The qemu pid is the thread on the earliest line of the compute
      cgroup's thread file whose executable names qemu-kvm. */
  lemma QemuKvmPidIsFirstMatch(threads: Result<string>, lookup: int -> Result<string>)
    requires QemuKvmPidOf(ThreadsOfFile(threads, lookup, Keep(QemuKvmThreads))).1.None?
    ensures threads.Ok?
    ensures var lines := Lines(threads.value);
      var pid := QemuKvmPidOf(ThreadsOfFile(threads, lookup, Keep(QemuKvmThreads))).0;
      exists i :: (0 <= i < |lines| && LineThread(lines[i], lookup).Ok?
        && LineThread(lines[i], lookup).value.0 == pid
        && QemuKvmFilter(LineThread(lines[i], lookup).value.1)
        && forall j :: 0 <= j < i ==> LineThread(lines[j], lookup).Ok? && !QemuKvmFilter(LineThread(lines[j], lookup).value.1))
  {
    ThreadsMatchingFirst(Lines(threads.value), lookup, Keep(QemuKvmThreads));
  }

  /** When every line resolves but no executable names qemu-kvm, the pid is not found. */
  lemma QemuKvmNotFound(threads: Result<string>, lookup: int -> Result<string>)
    requires threads.Ok? && ThreadsOfFile(threads, lookup, Keep(QemuKvmThreads)).Ok?
    requires forall i :: 0 <= i < |Lines(threads.value)| ==>
      LineThread(Lines(threads.value)[i], lookup).Ok? && !QemuKvmFilter(LineThread(Lines(threads.value)[i], lookup).value.1)
    ensures QemuKvmPidOf(ThreadsOfFile(threads, lookup, Keep(QemuKvmThreads))) == (-1, Some(QemuNotFound))
  {
    assert forall x :: Keep(QemuKvmThreads)(x) == QemuKvmFilter(x);
    ThreadsMatchingNoneKept(Lines(threads.value), lookup, Keep(QemuKvmThreads));
  }

  /** `getVcpuTids`' result: the filtered ids, or a nil slice with the error. */
  function VcpuTidsOf(listing: Result<seq<int>>): (r: (Slice<int>, Option<Error>))
    ensures r.1.None? <==> listing.Ok?
    ensures listing.Ok? ==> r.0 == Items(listing.value)
    ensures listing.Err? ==> r.0 == Nil && r.1 == Some(listing.error)
  {
    if listing.Err? then (Nil, Some(listing.error)) else (Items(listing.value), None)
  }

  /** The vCPU ids are exactly the ids on lines whose executable looks like a vCPU thread. */
  lemma VcpuTidsAreVcpuThreads(threads: Result<string>, lookup: int -> Result<string>)
    requires ThreadsOfFile(threads, lookup, Keep(VcpuThreads)).Ok?
    ensures threads.Ok?
    ensures var lines := Lines(threads.value);
      var tids := ThreadsOfFile(threads, lookup, Keep(VcpuThreads)).value;
      && (forall id :: id in tids ==> exists i :: (0 <= i < |lines| && LineThread(lines[i], lookup).Ok?
            && LineThread(lines[i], lookup).value.0 == id && VcpuFilter(LineThread(lines[i], lookup).value.1)))
      && (forall i :: 0 <= i < |lines| ==> (LineThread(lines[i], lookup).Ok? &&
            (VcpuFilter(LineThread(lines[i], lookup).value.1) ==> LineThread(lines[i], lookup).value.0 in tids)))
  {
    var lines := Lines(threads.value);
    ThreadsMatchingSound(lines, lookup, Keep(VcpuThreads));
    ThreadsMatchingComplete(lines, lookup, Keep(VcpuThreads));
  }

  // ---- the helper's sequence of manager calls ------------------------------------

  /** The cgroup a manager handles: the compute container's, the dedicated
      cgroup found for the VMI, or a child created under another manager's cgroup. */
  datatype Role = Compute | Dedicated(handle: ManagerHandle) | ChildOf(parent: Role, name: string)

  /** One call to a manager, tagged with the cgroup of the manager that received it. */
  datatype Call =
    | ListThreads(role: Role, filter: ThreadFilter)
    | AttachTask(role: Role, id: int, subSystem: string, taskType: TaskType)
    | CreateChild(role: Role, name: string, subSystem: string)
    | MakeThreaded(role: Role)

  /** What the host reports to a manager, by the cgroup it handles: the
      content of its thread file, the executable of each process id, and the
      outcome of each call. */
  datatype CgroupHost = CgroupHost(threads: Role -> Result<string>,
                                   lookup: int -> Result<string>,
                                   attachError: Role -> Option<Error>,
                                   createChildError: Role -> Option<Error>,
                                   makeThreadedError: Role -> Option<Error>)

  /** Every call made to any manager of one host, in order. */
  class CallLog {
    var calls: seq<Call>

    constructor ()
      ensures calls == []
    {
      calls := [];
    }
  }

  /** A cgroup `Manager` as the helper uses it: the calls it receives are
      logged under its own role, and the host decides their outcomes. */
  class Manager {
    const role: Role
    const host: CgroupHost
    const log: CallLog

    constructor (role: Role, host: CgroupHost, log: CallLog)
      ensures this.role == role && this.host == host && this.log == log
    {
      this.role := role;
      this.host := host;
      this.log := log;
    }

    /** `GetCgroupThreadsWithFilter`: the ids listed in this cgroup's thread
        file whose executable passes the filter. */
    method GetCgroupThreadsWithFilter(filter: ThreadFilter) returns (r: Result<seq<int>>)
      modifies log
      ensures log.calls == old(log.calls) + [ListThreads(role, filter)]
      ensures r == ThreadsOfFile(host.threads(role), host.lookup, Keep(filter))
    {
      log.calls := log.calls + [ListThreads(role, filter)];
      r := ThreadsOfFile(host.threads(role), host.lookup, Keep(filter));
    }

    method AttachTask(id: int, subSystem: string, taskType: TaskType) returns (err: Option<Error>)
      modifies log
      ensures log.calls == old(log.calls) + [Call.AttachTask(role, id, subSystem, taskType)]
      ensures err == host.attachError(role)
    {
      log.calls := log.calls + [Call.AttachTask(role, id, subSystem, taskType)];
      err := host.attachError(role);
    }

    /** `CreateChildCgroup`: on success, a new manager for the child cgroup
        `name` under this one, on the same host. */
    method CreateChildCgroup(name: string, subSystem: string) returns (child: Manager?, err: Option<Error>)
      modifies log
      ensures log.calls == old(log.calls) + [CreateChild(role, name, subSystem)]
      ensures err == host.createChildError(role)
      ensures err.None? <==> child != null
      ensures child != null ==> fresh(child) && child.role == ChildOf(role, name)
                                && child.host == host && child.log == log
    {
      log.calls := log.calls + [CreateChild(role, name, subSystem)];
      err := host.createChildError(role);
      child := null;
      if err.None? {
        child := new Manager(ChildOf(role, name), host, log);
      }
    }

    method MakeThreaded() returns (err: Option<Error>)
      modifies log
      ensures log.calls == old(log.calls) + [Call.MakeThreaded(role)]
      ensures err == host.makeThreadedError(role)
    {
      log.calls := log.calls + [Call.MakeThreaded(role)];
      err := host.makeThreadedError(role);
    }
  }

  /** The qemu-kvm listing of the compute cgroup. */
  function QemuKvmListing(host: CgroupHost, compute: Role): Result<seq<int>> {
    ThreadsOfFile(host.threads(compute), host.lookup, Keep(QemuKvmThreads))
  }

  /** The vCPU listing of the compute cgroup. */
  function VcpuListing(host: CgroupHost, compute: Role): Result<seq<int>> {
    ThreadsOfFile(host.threads(compute), host.lookup, Keep(VcpuThreads))
  }

  /** `getQemuKvmPid`. */
  method GetQemuKvmPid(computeCgroupManager: Manager) returns (pid: int, err: Option<Error>)
    modifies computeCgroupManager.log
    ensures computeCgroupManager.log.calls ==
      old(computeCgroupManager.log.calls) + [ListThreads(computeCgroupManager.role, QemuKvmThreads)]
    ensures (pid, err) == QemuKvmPidOf(QemuKvmListing(computeCgroupManager.host, computeCgroupManager.role))
  {
    var qemuKvmPids := computeCgroupManager.GetCgroupThreadsWithFilter(QemuKvmThreads);
    if qemuKvmPids.Err? {
      return -1, Some(qemuKvmPids.error);
    } else if |qemuKvmPids.value| == 0 {
      return -1, Some(QemuNotFound);
    }
    return qemuKvmPids.value[0], None;
  }

  /** `getVcpuTids`. */
  method GetVcpuTids(computeCgroupManager: Manager) returns (tids: Slice<int>, err: Option<Error>)
    modifies computeCgroupManager.log
    ensures computeCgroupManager.log.calls ==
      old(computeCgroupManager.log.calls) + [ListThreads(computeCgroupManager.role, VcpuThreads)]
    ensures (tids, err) == VcpuTidsOf(VcpuListing(computeCgroupManager.host, computeCgroupManager.role))
  {
    var vcpuTids := computeCgroupManager.GetCgroupThreadsWithFilter(VcpuThreads);
    if vcpuTids.Err? {
      return Nil, Some(vcpuTids.error);
    }
    return Items(vcpuTids.value), None;
  }

  /** The housekeeping child of the dedicated cgroup. */
  function Housekeeping(dedicated: Role): Role {
    ChildOf(dedicated, "housekeeping")
  }

  /** Every call the helper makes when nothing fails, in order, each tagged
      with the manager it goes to. */
  function FullCalls(compute: Role, dedicated: Role, qemuKvmPid: int): seq<Call> {
    [ListThreads(compute, QemuKvmThreads),
     AttachTask(dedicated, qemuKvmPid, "", Process),
     CreateChild(dedicated, "housekeeping", CgroupSubsystemCpuset),
     MakeThreaded(Housekeeping(dedicated)),
     ListThreads(compute, VcpuThreads)]
  }

  /** What the manager calls leave behind: the qemu pid, the vCPU ids, the
      first error, and the calls made. */
  datatype CallsOutcome = CallsOutcome(qemuKvmPid: int, vcpuTids: Slice<int>, err: Option<Error>, calls: seq<Call>)

  /** The helper's manager calls: each runs only when every earlier one
      succeeded, and the first error is the result. */
  function CallsSpec(host: CgroupHost, compute: Role, dedicated: Role): (o: CallsOutcome)
    ensures 1 <= |o.calls| <= 5 && o.calls == FullCalls(compute, dedicated, o.qemuKvmPid)[..|o.calls|]
    ensures o.err.None? ==> |o.calls| == 5 && o.vcpuTids.Items?
    ensures |o.calls| < 5 ==> o.err.Some? && o.vcpuTids.Nil?
    ensures |o.calls| == 1 ==> o.qemuKvmPid == -1
    ensures |o.calls| >= 2 ==> (QemuKvmListing(host, compute).Ok? && QemuKvmListing(host, compute).value != []
      && o.qemuKvmPid == QemuKvmListing(host, compute).value[0])
    ensures |o.calls| == 2 ==> o.err == host.attachError(dedicated)
    ensures |o.calls| == 3 ==> o.err == host.createChildError(dedicated)
    ensures |o.calls| == 4 ==> o.err == host.makeThreadedError(Housekeeping(dedicated))
    ensures |o.calls| >= 3 ==> host.attachError(dedicated).None?
    ensures |o.calls| >= 4 ==> host.createChildError(dedicated).None?
    ensures |o.calls| == 5 ==> host.makeThreadedError(Housekeeping(dedicated)).None?
    ensures |o.calls| == 5 ==> (o.vcpuTids, o.err) == VcpuTidsOf(VcpuListing(host, compute))
  {
    var (pid, qemuErr) := QemuKvmPidOf(QemuKvmListing(host, compute));
    var full := FullCalls(compute, dedicated, pid);
    if qemuErr.Some? then CallsOutcome(pid, Nil, qemuErr, full[..1])
    else if host.attachError(dedicated).Some? then CallsOutcome(pid, Nil, host.attachError(dedicated), full[..2])
    else if host.createChildError(dedicated).Some? then CallsOutcome(pid, Nil, host.createChildError(dedicated), full[..3])
    else if host.makeThreadedError(Housekeeping(dedicated)).Some? then
      CallsOutcome(pid, Nil, host.makeThreadedError(Housekeeping(dedicated)), full[..4])
    else
      var (tids, vcpuErr) := VcpuTidsOf(VcpuListing(host, compute));
      CallsOutcome(pid, tids, vcpuErr, full)
  }

  /** The sequence stops at its first failing step and at no other: the
      number of calls made is the position of the first step whose
      outcome is an error, or all five when none of the first four fails. */
  lemma CallsStopAtFirstError(host: CgroupHost, compute: Role, dedicated: Role)
    ensures var o := CallsSpec(host, compute, dedicated);
      var qemuErr := QemuKvmPidOf(QemuKvmListing(host, compute)).1;
      && (qemuErr.Some? <==> |o.calls| == 1)
      && (qemuErr.None? && host.attachError(dedicated).Some? <==> |o.calls| == 2)
      && ((qemuErr.None? && host.attachError(dedicated).None? && host.createChildError(dedicated).Some?)
          <==> |o.calls| == 3)
      && ((qemuErr.None? && host.attachError(dedicated).None? && host.createChildError(dedicated).None?
           && host.makeThreadedError(Housekeeping(dedicated)).Some?) <==> |o.calls| == 4)
      && (|o.calls| < 5 ==> o.err.Some?)
  {
  }

  /** Only the qemu process is attached, as a process with no subsystem, to
      the dedicated cgroup; no vCPU thread is attached and no cpuset is written. */
  lemma CallsAttachOnlyQemu(host: CgroupHost, compute: Role, dedicated: Role)
    ensures var o := CallsSpec(host, compute, dedicated);
      forall c :: c in o.calls && c.AttachTask? ==> c == AttachTask(dedicated, o.qemuKvmPid, "", Process)
  {
    var o := CallsSpec(host, compute, dedicated);
    var full := FullCalls(compute, dedicated, o.qemuKvmPid);
    forall c | c in o.calls && c.AttachTask? ensures c == AttachTask(dedicated, o.qemuKvmPid, "", Process) {
      var i :| 0 <= i < |o.calls| && o.calls[i] == c;
      assert o.calls[i] == full[i];
    }
  }

  /** Each call goes to the manager the helper names: thread listings to the
      compute manager, the attach and the child creation to the dedicated
      manager, and MakeThreaded to the child that creation returned. */
  lemma CallsReceivers(host: CgroupHost, compute: Role, dedicated: Role)
    ensures var o := CallsSpec(host, compute, dedicated);
      forall c :: c in o.calls ==>
        && (c.ListThreads? ==> c.role == compute)
        && (c.AttachTask? || c.CreateChild? ==> c.role == dedicated)
        && (c.MakeThreaded? ==> c.role == ChildOf(dedicated, "housekeeping"))
  {
    var o := CallsSpec(host, compute, dedicated);
    var full := FullCalls(compute, dedicated, o.qemuKvmPid);
    forall c | c in o.calls
      ensures (c.ListThreads? ==> c.role == compute)
      ensures (c.AttachTask? || c.CreateChild? ==> c.role == dedicated)
      ensures (c.MakeThreaded? ==> c.role == ChildOf(dedicated, "housekeeping"))
    {
      var i :| 0 <= i < |o.calls| && o.calls[i] == c;
      assert o.calls[i] == full[i];
    }
  }

  /** The manager calls of `dedicatedCpuHelper`, from finding the qemu pid to
      listing the vCPU threads: the qemu pid is attached to the dedicated
      manager, which creates the housekeeping child; the child is made
      threaded; the compute manager lists the threads. */
  method RunManagerCalls(computeCgroupManager: Manager, dedicatedCpusCgroupManager: Manager)
    returns (qemuKvmPid: int, vcpuTids: Slice<int>, err: Option<Error>)
    requires dedicatedCpusCgroupManager.log == computeCgroupManager.log
    requires dedicatedCpusCgroupManager.host == computeCgroupManager.host
    modifies computeCgroupManager.log
    ensures var o := CallsSpec(computeCgroupManager.host, computeCgroupManager.role, dedicatedCpusCgroupManager.role);
      && computeCgroupManager.log.calls == old(computeCgroupManager.log.calls) + o.calls
      && qemuKvmPid == o.qemuKvmPid && vcpuTids == o.vcpuTids && err == o.err
  {
    var log := computeCgroupManager.log;
    vcpuTids := Nil;
    ghost var start := log.calls;
    qemuKvmPid, err := GetQemuKvmPid(computeCgroupManager);
    ghost var full := FullCalls(computeCgroupManager.role, dedicatedCpusCgroupManager.role, qemuKvmPid);
    assert log.calls == start + full[..1];
    if err.Some? {
      return;
    }
    err := dedicatedCpusCgroupManager.AttachTask(qemuKvmPid, "", Process);
    assert log.calls == start + full[..2];
    if err.Some? {
      return;
    }
    var housekeepingCgroupManager;
    housekeepingCgroupManager, err := dedicatedCpusCgroupManager.CreateChildCgroup("housekeeping", CgroupSubsystemCpuset);
    assert log.calls == start + full[..3];
    if err.Some? {
      return;
    }
    err := housekeepingCgroupManager.MakeThreaded();
    assert log.calls == start + full[..4];
    if err.Some? {
      return;
    }
    vcpuTids, err := GetVcpuTids(computeCgroupManager);
    assert log.calls == start + full;
  }

  /** What the helper leaves behind: the dedicated cgroup it found, the
      qemu pid, the vCPU ids, the error, and the calls it made. */
  datatype HelperOutcome = HelperOutcome(dedicated: Option<ManagerHandle>, qemuKvmPid: int, vcpuTids: Slice<int>,
                                         err: Option<Error>, calls: seq<Call>)

  /** `dedicatedCpuHelper`'s steps: a VMI without dedicated CPUs and a failed
      search for the dedicated cgroup both end the helper before any manager
      call; otherwise the manager calls run, those of the dedicated cgroup
      going to a manager for the cgroup found. */
  function HelperSpec(cpuDedicated: bool, dedicated: Result<ManagerHandle>, host: CgroupHost, compute: Role): (o: HelperOutcome)
    ensures !cpuDedicated ==> o == HelperOutcome(None, 0, Nil, Some(NotCpuDedicated), [])
    ensures cpuDedicated && dedicated.Err? ==> o == HelperOutcome(None, 0, Nil, Some(dedicated.error), [])
    ensures o.calls == [] <==> !cpuDedicated || dedicated.Err?
    ensures |o.calls| <= 5
    ensures o.calls != [] ==> (o.dedicated == Some(dedicated.value)
      && o.calls == FullCalls(compute, Dedicated(dedicated.value), o.qemuKvmPid)[..|o.calls|])
    ensures o.err.None? ==> (o.calls != [] && o.calls == FullCalls(compute, Dedicated(dedicated.value), o.qemuKvmPid)
      && o.vcpuTids.Items?)
  {
    if !cpuDedicated then HelperOutcome(None, 0, Nil, Some(NotCpuDedicated), [])
    else if dedicated.Err? then HelperOutcome(None, 0, Nil, Some(dedicated.error), [])
    else
      var c := CallsSpec(host, compute, Dedicated(dedicated.value));
      HelperOutcome(Some(dedicated.value), c.qemuKvmPid, c.vcpuTids, c.err, c.calls)
  }

  /** The steps of `dedicatedCpuHelper`, returning the dedicated manager it
      obtained: a manager for the cgroup found, on the compute manager's host. */
  method DedicatedCpuSteps(computeCgroupManager: Manager, vmi: Vmi, procs: Result<seq<int>>,
                           fs: FileSystem, platform: Platform)
    returns (dedicated: Manager?, qemuKvmPid: int, vcpuTids: Slice<int>, err: Option<Error>)
    modifies computeCgroupManager.log
    ensures var o := HelperSpec(vmi.cpuDedicated, DedicatedManagerOf(vmi.bigUniqueValue, procs, fs.state.files, platform),
                                computeCgroupManager.host, computeCgroupManager.role);
      && computeCgroupManager.log.calls == old(computeCgroupManager.log.calls) + o.calls
      && qemuKvmPid == o.qemuKvmPid && vcpuTids == o.vcpuTids && err == o.err
      && (dedicated != null <==> o.dedicated.Some?)
      && (dedicated != null ==> fresh(dedicated) && dedicated.role == Dedicated(o.dedicated.value)
                                && dedicated.host == computeCgroupManager.host && dedicated.log == computeCgroupManager.log)
  {
    dedicated, qemuKvmPid, vcpuTids, err := null, 0, Nil, None;
    if !vmi.cpuDedicated {
      err := Some(NotCpuDedicated);
      return;
    }
    var dedicatedCpusCgroupManager := GetDedicatedCpuCgroupManager(vmi, procs, fs, platform);
    if dedicatedCpusCgroupManager.Err? {
      err := Some(dedicatedCpusCgroupManager.error);
      return;
    }
    dedicated := new Manager(Dedicated(dedicatedCpusCgroupManager.value), computeCgroupManager.host, computeCgroupManager.log);
    qemuKvmPid, vcpuTids, err := RunManagerCalls(computeCgroupManager, dedicated);
  }

  /** `dedicatedCpuHelper` as written: the dedicated manager is bound to a
      new local by `:=`, so the named result it was meant for stays nil and
      no manager is ever returned. */
  method DedicatedCpuHelper(computeCgroupManager: Manager, vmi: Vmi, procs: Result<seq<int>>,
                            fs: FileSystem, platform: Platform)
    returns (dedicatedCpuManager: Manager?, qemuKvmPid: int, vcpuTids: Slice<int>, err: Option<Error>)
    modifies computeCgroupManager.log
    ensures var o := HelperSpec(vmi.cpuDedicated, DedicatedManagerOf(vmi.bigUniqueValue, procs, fs.state.files, platform),
                                computeCgroupManager.host, computeCgroupManager.role);
      && computeCgroupManager.log.calls == old(computeCgroupManager.log.calls) + o.calls
      && qemuKvmPid == o.qemuKvmPid && vcpuTids == o.vcpuTids && err == o.err
    ensures dedicatedCpuManager == null
    ensures err.None? ==> DedicatedManagerOf(vmi.bigUniqueValue, procs, fs.state.files, platform).Ok?
  {
    var dedicatedCpusCgroupManager;
    dedicatedCpusCgroupManager, qemuKvmPid, vcpuTids, err := DedicatedCpuSteps(computeCgroupManager, vmi, procs, fs, platform);
    dedicatedCpuManager := null;
  }

  /** A process table in which every thread runs qemu-kvm. */
  function QemuOnly(tid: int): Result<string> {
    Ok("qemu-kvm")
  }

  /** Every cgroup's thread file holds the single line "7". */
  function SevenThreads(role: Role): Result<string> {
    Ok("7")
  }

  /** No manager call fails. */
  function NoError(role: Role): Option<Error> {
    None
  }

  /** The executable name qemu-kvm passes the qemu filter and not the vCPU one. */
  lemma QemuKvmNameFilters()
    ensures QemuKvmFilter("qemu-kvm") && !VcpuFilter("qemu-kvm")
  {
    assert HasPrefix("qemu-kvm", "qemu-kvm");
    NotContainsWithoutFirst("qemu-kvm", "KVM");
  }

  /** A thread file holding the single line "7". */
  lemma SevenLine()
    ensures Lines("7") == ["7"] && Atoi("7") == Some(7)
  {
    var empty: string := [];
    assert "7"[0] == '7' && "7"[1..] == empty && "7"[..0] == empty;
    assert empty + ['7'] == "7";
    assert ScanLines("7", empty) == ScanLines(empty, "7");
    assert DropCR("7") == "7";
    assert AllDigits("7") && DecimalValue("7") == DecimalValue(empty) * 10 + DigitValue('7');
  }

  /** Listing the thread file "7" when thread 7 runs qemu-kvm. */
  lemma SevenListings()
    ensures ThreadsOfFile(Ok("7"), QemuOnly, Keep(QemuKvmThreads)) == Ok([7])
    ensures ThreadsOfFile(Ok("7"), QemuOnly, Keep(VcpuThreads)) == Ok([])
  {
    var none: seq<int> := [];
    SevenLine();
    QemuKvmNameFilters();
    assert ["7"][..0] == [];
    assert LineThread("7", QemuOnly) == Ok((7, "qemu-kvm"));
    assert ThreadsMatching(["7"], QemuOnly, Keep(QemuKvmThreads)) == Ok(none + [7]);
    assert ThreadsMatching(["7"], QemuOnly, Keep(VcpuThreads)) == Ok(none + none);
    assert none + [7] == [7] && none + none == none;
  }

  /** A run in which every step succeeds: the compute cgroup lists one thread,
      7, running qemu-kvm, and no manager call fails. The dedicated cgroup `h`
      was found, yet the helper as written reports success with no manager. */
  lemma HelperSucceedsWithManager(h: ManagerHandle)
    ensures var host := CgroupHost(SevenThreads, QemuOnly, NoError, NoError, NoError);
      HelperSpec(true, Ok(h), host, Compute)
        == HelperOutcome(Some(h), 7, Items([]), None, FullCalls(Compute, Dedicated(h), 7))
  {
    var host := CgroupHost(SevenThreads, QemuOnly, NoError, NoError, NoError);
    SevenListings();
    assert QemuKvmListing(host, Compute) == Ok([7]);
    assert VcpuListing(host, Compute) == Ok([]);
  }

  /** `dedicatedCpuHelper` with the dedicated manager assigned to the named
      result: whenever the helper succeeds, it returns a manager for the
      dedicated cgroup it found. */
  method DedicatedCpuHelperFixed(computeCgroupManager: Manager, vmi: Vmi, procs: Result<seq<int>>,
                                 fs: FileSystem, platform: Platform)
    returns (dedicatedCpuManager: Manager?, qemuKvmPid: int, vcpuTids: Slice<int>, err: Option<Error>)
    modifies computeCgroupManager.log
    ensures var o := HelperSpec(vmi.cpuDedicated, DedicatedManagerOf(vmi.bigUniqueValue, procs, fs.state.files, platform),
                                computeCgroupManager.host, computeCgroupManager.role);
      && computeCgroupManager.log.calls == old(computeCgroupManager.log.calls) + o.calls
      && qemuKvmPid == o.qemuKvmPid && vcpuTids == o.vcpuTids && err == o.err
    ensures err.None? ==> (dedicatedCpuManager != null
      && dedicatedCpuManager.role == Dedicated(DedicatedManagerOf(vmi.bigUniqueValue, procs, fs.state.files, platform).value))
  {
    dedicatedCpuManager, qemuKvmPid, vcpuTids, err := DedicatedCpuSteps(computeCgroupManager, vmi, procs, fs, platform);
  }
}
