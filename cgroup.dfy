/** cgroup.go: the task types, the version dispatch that builds a manager
    from controller paths or from a process id, and the cpuset file lookups.
    Which mode the host runs in, runc's cgroup-file parser and runc's manager
    constructors are host facts, gathered in a `Platform` value. */
module Cgroup {
  import opened Wrappers
  import opened Text
  import opened Paths
  import opened FakeOs
  import opened CgroupUtil

  /** What an id handed to `AttachTask` names. */
  datatype TaskType = Thread | Process {
    /** The Go constant, numbered in declaration order from 0. */
    function Value(): (v: int)
      ensures 0 <= v <= 1
      ensures v == 0 <==> this == Thread
    {
      if Thread? then 0 else 1
    }
  }

  /** What a manager is built on: the v1 subsystem-path map, or the v2
      unified directory. */
  datatype ManagerHandle = V1Handle(paths: map<string, string>) | V2Handle(dirPath: string) {
    function Version(): CgroupVersion {
      if V1Handle? then V1 else V2
    }
  }

  /** The host facts the dispatch depends on: whether the host runs the
      unified (v2) hierarchy, runc's `ParseCgroupFile`, and the error (if
      any) runc's manager constructor raises for a given handle. */
  datatype Platform = Platform(unified: bool,
                               parseCgroupFile: string -> Result<map<string, string>>,
                               constructorError: ManagerHandle -> Option<Error>)

  /** The handle `NewManagerFromPath` hands to the version's constructor. */
  function HandleFor(controllerPaths: map<string, string>, unified: bool): ManagerHandle {
    var formatted := FormattedPaths(controllerPaths, unified);
    if unified then V2Handle(formatted[""]) else V1Handle(formatted)
  }

  /** `NewManagerFromPath`: in unified mode a v2 manager on the rewritten ""
      entry alone; otherwise a v1 manager on the whole rewritten map. */
  function NewManagerFromPath(controllerPaths: map<string, string>, platform: Platform): (r: Result<ManagerHandle>)
    ensures r.Ok? <==> platform.constructorError(HandleFor(controllerPaths, platform.unified)).None?
    ensures r.Err? ==> r.error == platform.constructorError(HandleFor(controllerPaths, platform.unified)).value
    ensures r.Ok? ==> r.value.Version() == if platform.unified then V2 else V1
    ensures r.Ok? && platform.unified ==>
      r.value.dirPath == FormatUnifiedPath(if "" in controllerPaths then controllerPaths[""] else "")
      && HasPrefix(r.value.dirPath, CgroupBasePath)
    ensures r.Ok? && !platform.unified ==>
      r.value.paths == FormattedPaths(controllerPaths, false) && r.value.paths.Keys == controllerPaths.Keys
  {
    UnifiedPathUnderCgroupRoot(if "" in controllerPaths then controllerPaths[""] else "");
    var handle := HandleFor(controllerPaths, platform.unified);
    match platform.constructorError(handle)
    case Some(e) => Err(e)
    case None => Ok(handle)
  }

  /** The cgroup file of a process: /proc/<pid>/cgroup. */
  function CgroupFilePath(pid: int): string {
    Join3(ProcMountPoint, Itoa(pid), CgroupStr)
  }

  lemma CgroupFilePathSpelled(pid: int)
    ensures CgroupFilePath(pid) == "/proc/" + Itoa(pid) + "/cgroup"
  {
    var d := Itoa(pid);
    ItoaHasNoSlashNorSpace(pid);
    assert TrimLeadingSlashes(d) == d;
    var a := "/proc/" + d;
    assert Join(ProcMountPoint, d) == a;
    assert a[|a| - 1] == d[|d| - 1];
    assert TrimTrailingSlashes(a) == a;
  }

  /** `NewManagerFromPid`: parses the process's cgroup file; a parse failure
      is wrapped and no manager is built, otherwise the paths are dispatched. */
  function NewManagerFromPid(pid: int, platform: Platform): (r: Result<ManagerHandle>)
    ensures platform.parseCgroupFile("/proc/" + Itoa(pid) + "/cgroup").Err? ==>
      r == Err(ManagerInitFailed(platform.parseCgroupFile("/proc/" + Itoa(pid) + "/cgroup").error))
    ensures platform.parseCgroupFile("/proc/" + Itoa(pid) + "/cgroup").Ok? ==>
      r == NewManagerFromPath(platform.parseCgroupFile("/proc/" + Itoa(pid) + "/cgroup").value, platform)
  {
    CgroupFilePathSpelled(pid);
    match platform.parseCgroupFile(CgroupFilePath(pid))
    case Err(e) => Err(ManagerInitFailed(e))
    case Ok(controllerPaths) => NewManagerFromPath(controllerPaths, platform)
  }

  /** `GetGlobalCpuSetPath`: the cpuset file of the root cgroup for the host's mode. */
  function GetGlobalCpuSetPath(unified: bool): (p: string)
    ensures unified ==> p == "/sys/fs/cgroup/cpuset.cpus.effective"
    ensures !unified ==> p == "/sys/fs/cgroup/cpuset/cpuset.cpus"
  {
    if unified then
      JoinPlain(CgroupBasePath, "cpuset.cpus.effective");
      Join(CgroupBasePath, "cpuset.cpus.effective")
    else
      JoinPlain(CgroupBasePath, CgroupSubsystemCpuset);
      JoinPlain(CgroupBasePath + "/" + CgroupSubsystemCpuset, "cpuset.cpus");
      Join3(CgroupBasePath, CgroupSubsystemCpuset, "cpuset.cpus")
  }

  /** cgroup.go's `getCpuSetPath`: the content of `cpusetFile` in the
      manager's cpuset directory without its surrounding white space. A
      failed subsystem lookup returns before any file is read. */
  function GetCpuSetPath(subSysPath: Result<string>, cpusetFile: string, fs: FileSystem): (r: Result<string>)
    reads fs
    ensures subSysPath.Err? ==> r == Err(subSysPath.error)
    ensures subSysPath.Ok? ==> (r.Ok? <==> Join(subSysPath.value, cpusetFile) in fs.state.files)
    ensures subSysPath.Ok? && r.Err? ==> r == Err(NotExist(Join(subSysPath.value, cpusetFile)))
    ensures r.Ok? ==> r.value == [] || (!IsSpace(r.value[0]) && !IsSpace(r.value[|r.value| - 1]))
    ensures r.Ok? ==> exists lead, trail :: (AllSpace(lead) && AllSpace(trail)
      && fs.state.files[Join(subSysPath.value, cpusetFile)] == lead + r.value + trail)
  {
    if subSysPath.Err? then Err(subSysPath.error)
    else
      match fs.ReadFile(Join(subSysPath.value, cpusetFile))
      case Err(e) => Err(e)
      case Ok(cpuset) => Ok(TrimSpace(cpuset))
  }

  /** util.go's list-returning `getCpuSetPath` parses exactly what the
      string-returning one of cgroup.go yields. */
  lemma CpuSetListParsesCpuSetPath(subSysPath: Result<string>, cpusetFile: string, fs: FileSystem,
                                   parse: (string, int) -> Result<seq<int>>)
    ensures GetCpuSetList(subSysPath, cpusetFile, fs, parse) ==
      match GetCpuSetPath(subSysPath, cpusetFile, fs)
      case Err(e) => Err(e)
      case Ok(s) => parse(s, 5000)
  {
  }
}
