/** cgroup_v2_manager.go: the cgroup v2 manager. It tracks the device rules
    it has applied, hands every resource change to the privileged helper, and
    writes the v2 interface files (cgroup.subtree_control, cgroup.type,
    cgroup.threads, cpuset.cpus, cpu.weight) of its directory directly. */
module CgroupV2 {
  import opened Wrappers
  import opened Text
  import opened Paths
  import opened FakeOs
  import opened CgroupUtil
  import opened Cgroup

  /** The paths `Set` hands to the helper: the manager's directory as
      "target", plus its parent as "parent" when the directory is a crun
      "container" leaf under a systemd ".scope". */
  function SubsystemPaths(dirPath: string): (m: map<string, string>)
    ensures "target" in m && m["target"] == dirPath
    ensures "parent" in m <==> Base(dirPath) == "container" && HasSuffix(Dir(dirPath), ".scope")
    ensures "parent" in m ==> m["parent"] == Dir(dirPath)
    ensures m.Keys <= {"target", "parent"}
  {
    var targetDir, parentPath := Base(dirPath), Dir(dirPath);
    var paths := map["target" := dirPath];
    if targetDir == "container" && HasSuffix(parentPath, ".scope") then paths["parent" := parentPath]
    else paths
  }

  /** A crun "container" directory inside a ".scope" also names the scope. */
  lemma CrunContainerPaths(scope: string)
    requires CleanDir(scope) && HasSuffix(scope, ".scope")
    ensures SubsystemPaths(Join(scope, "container")) ==
      map["target" := scope + "/container", "parent" := scope]
  {
    assert Element("container") by {
      forall i | 0 <= i < |"container"| ensures "container"[i] != '/' {
        assert "container"[i] in "container";
      }
    }
    BaseDirOfJoin(scope, "container");
    JoinElement(scope, "container");
    var p := Join(scope, "container");
    assert p == scope + "/container";
    var m := SubsystemPaths(p);
    assert "parent" in m && m["parent"] == scope;
    assert m["target"] == scope + "/container";
    assert m.Keys == {"target", "parent"};
  }

  /** Any other leaf directory is sent alone, as "target". */
  lemma OtherLeafPaths(parent: string, name: string)
    requires CleanDir(parent) && Element(name) && name != "container"
    ensures SubsystemPaths(Join(parent, name)) == map["target" := Join(parent, name)]
  {
    BaseDirOfJoin(parent, name);
  }

  /** One invocation of the helper by `Set`. */
  datatype SetRequest = SetRequest(resources: Resources, paths: map<string, string>, rootless: bool, version: CgroupVersion)

  /** What `newManagerFromChildCgroup` builds a child manager from. */
  datatype ChildCgroup = ChildCgroup(parentPath: string, name: string, subSystem: string)

  /** What `newManagerFromChildCgroup` returns for a child: its error, if it reports one, or the child. */
  function ChildManager(child: ChildCgroup, childError: Option<Error>): Result<ChildCgroup> {
    if childError.Some? then Err(childError.value) else Ok(child)
  }

  /** The writes `CreateChildCgroup` issues for a child that does not exist yet, in order. */
  function ChildCgroupOps(dirPath: string, name: string, subSystem: string): (ops: seq<FsOp>)
    ensures |ops| == 4
  {
    var child := Join(dirPath, name);
    [Write(Join(dirPath, "cgroup.subtree_control"), "+" + subSystem),
     Mkdir(child),
     Write(Join(child, "cgroup.type"), "threaded"),
     Write(Join(child, "cgroup.subtree_control"), "+" + subSystem)]
  }

  /** Running the whole child-creation sequence leaves the child directory in place. */
  lemma {:induction false} ChildCgroupOpsCreateDir(s: FsState, dirPath: string, name: string, subSystem: string, failing: set<string>)
    requires PerformAll(s, ChildCgroupOps(dirPath, name, subSystem), failing).1
    ensures Join(dirPath, name) in PerformAll(s, ChildCgroupOps(dirPath, name, subSystem), failing).0.dirs
  {
    var ops := ChildCgroupOps(dirPath, name, subSystem);
    var s1 := Perform(s, ops[0], failing).0;
    var s2 := Perform(s1, ops[1], failing).0;
    var s3 := Perform(s2, ops[2], failing).0;
    assert ops[0..] == ops && ops[4..] == [];
    PerformAllStep(s, ops, 0, failing);
    PerformAllStep(s1, ops, 1, failing);
    PerformAllStep(s2, ops, 2, failing);
    PerformAllStep(s3, ops, 3, failing);
  }

  /** The value `GetCpuWeight` reads: the trimmed content as a decimal integer. */
  function CpuWeightOf(content: Result<string>): Result<int> {
    match content
    case Err(e) => Err(e)
    case Ok(c) =>
      match Atoi(TrimSpace(c))
      case None => Err(CpuWeightFormat(TrimSpace(c)))
      case Some(w) => Ok(w)
  }

  /** What `SetCpuWeight` writes reads back as the same weight. */
  lemma CpuWeightRoundTrip(weight: int)
    requires 0 < weight <= MaxInt64
    ensures CpuWeightOf(Ok(Itoa(weight))) == Ok(weight)
  {
    ItoaHasNoSlashNorSpace(weight);
    TrimSpaceKeepsTrimmed(Itoa(weight));
    AtoiItoa(weight);
  }

  /** The base or sub-cgroup directory a write lands in. */
  function SubcgroupPath(base: string, subcgroup: string): string {
    if subcgroup != "" then Join(base, subcgroup) else base
  }

  class V2Manager {
    const dirPath: string
    const isRootless: bool
    /** The rules applied so far; every `Set` merges into them. */
    var deviceRules: Slice<DeviceRule>
    /** The trampoline that applies resources with privileges. */
    const execVirtChroot: (Resources, map<string, string>, bool, CgroupVersion) -> Option<Error>
    /** The host filesystem the manager writes its interface files to. */
    const fs: FileSystem
    /** Every trampoline invocation, in order. */
    var requests: seq<SetRequest>

    /** The tracked rules are a non-nil slice that still covers every default identity. */
    ghost predicate Valid()
      reads this
    {
      deviceRules.Items? && DefaultIds() <= Ids(deviceRules.items)
    }

    /** `newCustomizedV2Manager`: the directory is runc's "" path; the tracked
        rules are the given ones followed by the (memoised) default rules. */
    constructor (runcPaths: map<string, string>, isRootless: bool, deviceRules: Slice<DeviceRule>,
                 execVirtChroot: (Resources, map<string, string>, bool, CgroupVersion) -> Option<Error>,
                 fs: FileSystem, cache: DefaultRulesCache, unified: bool)
      requires cache.Valid()
      modifies cache
      ensures Valid() && cache.Valid()
      ensures this.dirPath == if "" in runcPaths then runcPaths[""] else ""
      ensures this.isRootless == isRootless && this.execVirtChroot == execVirtChroot && this.fs == fs
      ensures this.deviceRules == Append(deviceRules, cache.cached)
      ensures old(cache.cached) == [] ==> cache.cached == DefaultRules(DefaultPermissions(unified))
      ensures old(cache.cached) != [] ==> cache.cached == old(cache.cached)
      ensures requests == []
    {
      var defaults := cache.GenerateDefaultDeviceRules(unified);
      DefaultRulesIds(DefaultPermissions(true));
      DefaultRulesIds(DefaultPermissions(false));
      IdsConcat(deviceRules.Elems(), defaults);
      this.dirPath := if "" in runcPaths then runcPaths[""] else "";
      this.isRootless := isRootless;
      this.deviceRules := Append(deviceRules, defaults);
      this.execVirtChroot := execVirtChroot;
      this.fs := fs;
      this.requests := [];
    }

    /** Every subsystem lives in the one unified directory; the lookup never fails. */
    function GetBasePathToHostSubsystem(subsystem: string): (r: Result<string>)
      ensures r.Ok? && r.value == dirPath
    {
      Ok(dirPath)
    }

    function GetCgroupVersion(): (v: CgroupVersion)
      ensures v == V2
    {
      V2
    }

    /** `Set`: merges the requested rules into the tracked ones, stores the
        merge, and only then runs the trampoline on a copy of the request
        carrying the merged rules. Nil requested rules fail before anything
        changes. */
    method Set(r: Resources) returns (err: Option<Error>)
      requires Valid()
      modifies this
      ensures Valid()
      ensures r.devices.Nil? ==>
        err == Some(NilNewRules) && deviceRules == old(deviceRules) && requests == old(requests)
      ensures r.devices.Items? ==>
        && deviceRules == Items(MergedRules(r.devices.items, old(deviceRules).items))
        && Ids(deviceRules.items) == Ids(r.devices.items) + Ids(old(deviceRules).items)
        && requests == old(requests) + [SetRequest(r.(devices := deviceRules), SubsystemPaths(dirPath), isRootless, V2)]
        && err == execVirtChroot(r.(devices := deviceRules), SubsystemPaths(dirPath), isRootless, V2)
    {
      var resourcesToSet := r;
      var rulesToSet := AddCurrentRules(deviceRules, resourcesToSet.devices);
      if rulesToSet.Err? {
        return Some(rulesToSet.error);
      }
      MergedIds(r.devices.items, deviceRules.items);
      deviceRules := rulesToSet.value;
      resourcesToSet := resourcesToSet.(devices := rulesToSet.value);
      var subsystemPaths := SubsystemPaths(dirPath);
      requests := requests + [SetRequest(resourcesToSet, subsystemPaths, isRootless, GetCgroupVersion())];
      err := execVirtChroot(resourcesToSet, subsystemPaths, isRootless, GetCgroupVersion());
    }

    /** `GetCpuSet`: the trimmed content of cpuset.cpus.effective. */
    function GetCpuSet(): (r: Result<string>)
      reads fs
      ensures r.Ok? <==> Join(dirPath, "cpuset.cpus.effective") in fs.state.files
      ensures r.Ok? ==> r.value == TrimSpace(fs.state.files[Join(dirPath, "cpuset.cpus.effective")])
    {
      GetCpuSetPath(GetBasePathToHostSubsystem(CgroupSubsystemCpuset), "cpuset.cpus.effective", fs)
    }

    /** `CreateChildCgroup`: a child that already exists (any Stat outcome
        other than not-exist) is handed to `newManagerFromChildCgroup` without
        a write; otherwise the four writes of ChildCgroupOps run in order,
        stopping at the first failure, and only a complete run reaches the
        child manager. `childError` is what `newManagerFromChildCgroup`
        reports for this child, if anything. */
    method CreateChildCgroup(name: string, subSystem: string, childError: Option<Error>) returns (r: Result<ChildCgroup>)
      modifies fs
      ensures !old(fs.StatNotExist(Join(dirPath, name))) ==>
        r == ChildManager(ChildCgroup(dirPath, name, subSystem), childError) && fs.state == old(fs.state)
      ensures old(fs.StatNotExist(Join(dirPath, name))) ==>
        var ops := ChildCgroupOps(dirPath, name, subSystem);
        var k := FirstFailing(ops, fs.failing);
        && fs.state == PerformAll(old(fs.state), ops, fs.failing).0
        && fs.state.log == old(fs.state.log) + ops[..if k < |ops| then k + 1 else k]
        && (k < |ops| ==> r == Err(WriteFailed(OpPath(ops[k]))))
        && (k == |ops| ==> r == ChildManager(ChildCgroup(dirPath, name, subSystem), childError)
                           && Join(dirPath, name) in fs.state.dirs)
      ensures r.Ok? ==> childError.None? && r.value == ChildCgroup(dirPath, name, subSystem)
                        && !fs.StatNotExist(Join(dirPath, name))
    {
      var subSysPath := GetBasePathToHostSubsystem(subSystem);
      var newGroupPath := Join(subSysPath.value, name);
      if !fs.StatNotExist(newGroupPath) {
        return ChildManager(ChildCgroup(dirPath, name, subSystem), childError);
      }
      ghost var s0 := fs.state;
      ghost var ops := ChildCgroupOps(dirPath, name, subSystem);
      PerformAllStopsAtFirstFailure(s0, ops, fs.failing);
      assert ops[0..] == ops && ops[4..] == [];

      var wVal := "+" + subSystem;
      PerformAllStep(fs.state, ops, 0, fs.failing);
      var err := fs.WriteFile(subSysPath.value, "cgroup.subtree_control", wVal);
      if err.Some? {
        return Err(err.value);
      }
      PerformAllStep(fs.state, ops, 1, fs.failing);
      err := fs.MkdirAll(newGroupPath);
      if err.Some? {
        return Err(err.value);
      }
      PerformAllStep(fs.state, ops, 2, fs.failing);
      err := fs.WriteFile(newGroupPath, "cgroup.type", "threaded");
      if err.Some? {
        return Err(err.value);
      }
      PerformAllStep(fs.state, ops, 3, fs.failing);
      wVal := "+" + subSystem;
      err := fs.WriteFile(newGroupPath, "cgroup.subtree_control", wVal);
      if err.Some? {
        return Err(err.value);
      }
      ChildCgroupOpsCreateDir(s0, dirPath, name, subSystem, fs.failing);
      return ChildManager(ChildCgroup(dirPath, name, subSystem), childError);
    }

    /** `AttachTID`: writes the decimal tid to cgroup.threads of the base
        directory, or of base/subCgroup when one is named. */
    method AttachTID(subSystem: string, subCgroup: string, tid: int) returns (err: Option<Error>)
      modifies fs
      ensures (fs.state, err.None?) ==
        Perform(old(fs.state), Write(Join(SubcgroupPath(dirPath, subCgroup), "cgroup.threads"), Itoa(tid)), fs.failing)
      ensures err.Some? ==> err.value == WriteFailed(Join(SubcgroupPath(dirPath, subCgroup), "cgroup.threads"))
    {
      var cgroupPath := GetBasePathToHostSubsystem(subSystem).value;
      if subCgroup != "" {
        cgroupPath := Join(cgroupPath, subCgroup);
      }
      var wVal := Itoa(tid);
      err := fs.WriteFile(cgroupPath, "cgroup.threads", wVal);
    }

    /** `GetCgroupThreads`: every id listed in cgroup.threads, in file order. */
    method GetCgroupThreads(lookup: int -> Result<string>) returns (r: Result<seq<int>>)
      ensures r == ThreadsOfFile(fs.ReadFile(Join(dirPath, "cgroup.threads")), lookup, KeepOf(None))
      ensures r.Ok? ==> forall i :: 0 <= i < |r.value| ==> exists j :: (0 <= j < |Lines(fs.state.files[Join(dirPath, "cgroup.threads")])|
        && Atoi(Lines(fs.state.files[Join(dirPath, "cgroup.threads")])[j]) == Some(r.value[i]))
    {
      r := GetCgroupThreadsHelper(GetBasePathToHostSubsystem(CgroupSubsystemCpuset), "cgroup.threads", fs, lookup, None);
      if r.Ok? {
        var lines := Lines(fs.state.files[Join(dirPath, "cgroup.threads")]);
        ThreadsMatchingAll(lines, lookup);
        forall i | 0 <= i < |r.value|
          ensures exists j :: 0 <= j < |lines| && Atoi(lines[j]) == Some(r.value[i])
        {
          assert Atoi(lines[i]) == Some(r.value[i]);
        }
      }
    }

    /** `SetCpuSet`: writes the cpuset spelling of `cpulist` to cpuset.cpus of
        the manager's directory; `subcgroup` is not passed on. */
    method SetCpuSet(subcgroup: string, cpulist: seq<int>, format: seq<int> -> Result<string>) returns (err: Option<Error>)
      modifies fs
      ensures format(cpulist).Err? ==> err == Some(format(cpulist).error) && fs.state == old(fs.state)
      ensures format(cpulist).Ok? ==>
        (fs.state, err.None?) == Perform(old(fs.state), Write(Join(dirPath, "cpuset.cpus"), format(cpulist).value), fs.failing)
    {
      err := SetCpuSetHelper(GetBasePathToHostSubsystem(CgroupSubsystemCpuset), cpulist, fs, format);
    }

    /** `GetCpuWeight`: the integer in cpu.weight, or -1 with an error when
        the file is unreadable or holds no integer. */
    method GetCpuWeight() returns (weight: int, err: Option<Error>)
      ensures err.None? <==> CpuWeightOf(fs.ReadFile(Join(dirPath, "cpu.weight"))).Ok?
      ensures err.None? ==> weight == CpuWeightOf(fs.ReadFile(Join(dirPath, "cpu.weight"))).value
      ensures err.Some? ==> weight == -1 && err.value == CpuWeightOf(fs.ReadFile(Join(dirPath, "cpu.weight"))).error
      ensures err.None? ==> MinInt64 <= weight <= MaxInt64
    {
      var subSysPath := GetBasePathToHostSubsystem(CgroupSubsystemCpu).value;
      var cpuWeightBytes := fs.ReadFile(Join(subSysPath, "cpu.weight"));
      if cpuWeightBytes.Err? {
        return -1, Some(cpuWeightBytes.error);
      }
      var cpuWeightStr := TrimSpace(cpuWeightBytes.value);
      var cpuWeight := Atoi(cpuWeightStr);
      if cpuWeight.None? {
        return -1, Some(CpuWeightFormat(cpuWeightStr));
      }
      return cpuWeight.value, None;
    }

    /** `SetCpuWeight`: a weight that is not positive is refused before any
        write; otherwise its decimal spelling goes to cpu.weight of the base
        directory or of base/subcgroup. */
    method SetCpuWeight(subcgroup: string, weight: int) returns (err: Option<Error>)
      modifies fs
      ensures weight <= 0 ==> err == Some(InvalidCpuWeight(weight)) && fs.state == old(fs.state)
      ensures weight > 0 ==>
        && fs.state == Perform(old(fs.state), Write(Join(SubcgroupPath(dirPath, subcgroup), "cpu.weight"), Itoa(weight)), fs.failing).0
        && (err.None? <==> Join(SubcgroupPath(dirPath, subcgroup), "cpu.weight") !in fs.failing)
        && (err.Some? ==> err.value == CpuWeightWriteFailed(weight))
      ensures err.None? && subcgroup == "" && weight <= MaxInt64 ==>
        CpuWeightOf(fs.ReadFile(Join(dirPath, "cpu.weight"))) == Ok(weight)
    {
      if weight <= 0 {
        return Some(InvalidCpuWeight(weight));
      }
      var subSysPath := GetBasePathToHostSubsystem(CgroupSubsystemCpu).value;
      if subcgroup != "" {
        subSysPath := Join(subSysPath, subcgroup);
      }
      var writeErr := fs.WriteFile(subSysPath, "cpu.weight", Itoa(weight));
      if writeErr.Some? {
        return Some(CpuWeightWriteFailed(weight));
      }
      if weight <= MaxInt64 {
        CpuWeightRoundTrip(weight);
      }
      return None;
    }
  }
}
