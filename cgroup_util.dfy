/** The helpers shared by the cgroup managers: device-rule merging, the
    default device allow-list, the privileged helper's argument vector,
    thread listing, cpuset writing and path normalisation. */
module CgroupUtil {
  import opened Wrappers
  import opened Text
  import opened Paths
  import opened FakeOs

  datatype CgroupVersion = V1 | V2

  const CgroupStr: string := "cgroup"
  const ProcMountPoint: string := "/proc"
  const HostRootPath: string := "/proc/1/root"
  const CgroupBasePath: string := "/sys/fs/cgroup"
  const HostCgroupBasePath: string := "/proc/1/root/sys/fs/cgroup"

  const CgroupSubsystemCpu: string := "cpu"
  const CgroupSubsystemCpuset: string := "cpuset"

  // ---- device rules ----------------------------------------------------------

  datatype DeviceType = WildcardDevice | BlockDevice | CharDevice

  /** The identity a merge compares rules by: permissions and allow are payload. */
  datatype DeviceId = DeviceId(devType: DeviceType, major: int, minor: int)

  /** A device allow/deny rule; minor (or major) -1 stands for "any". */
  datatype DeviceRule = DeviceRule(devType: DeviceType, major: int, minor: int, permissions: string, allow: bool) {
    function Id(): DeviceId {
      DeviceId(devType, major, minor)
    }
  }

  function Ids(rules: seq<DeviceRule>): set<DeviceId> {
    set r | r in rules :: r.Id()
  }

  lemma IdsConcat(a: seq<DeviceRule>, b: seq<DeviceRule>)
    ensures Ids(a + b) == Ids(a) + Ids(b)
  {
    assert forall r :: r in a + b <==> r in a || r in b;
  }

  /** The current rules a merge keeps, in their original order: a current
      rule is kept when its identity occurs neither among the new rules nor
      among the current rules before it. */
  function KeptCurrent(newRules: seq<DeviceRule>, current: seq<DeviceRule>): seq<DeviceRule>
    decreases |current|
  {
    if current == [] then []
    else
      var prefix := current[..|current| - 1];
      var last := current[|current| - 1];
      KeptCurrent(newRules, prefix)
        + (if last.Id() in Ids(newRules) + Ids(prefix) then [] else [last])
  }

  /** The merged rule list: the new rules, then the kept current rules. */
  function MergedRules(newRules: seq<DeviceRule>, current: seq<DeviceRule>): seq<DeviceRule> {
    newRules + KeptCurrent(newRules, current)
  }

  /** A merge revokes no identity: the merged identities are those of both inputs. */
  lemma {:induction false} MergedIds(newRules: seq<DeviceRule>, current: seq<DeviceRule>)
    ensures Ids(MergedRules(newRules, current)) == Ids(newRules) + Ids(current)
    decreases |current|
  {
    if current != [] {
      var prefix := current[..|current| - 1];
      var last := current[|current| - 1];
      MergedIds(newRules, prefix);
      assert current == prefix + [last];
      IdsConcat(prefix, [last]);
      var extra := if last.Id() in Ids(newRules) + Ids(prefix) then [] else [last];
      assert MergedRules(newRules, current) == MergedRules(newRules, prefix) + extra;
      IdsConcat(MergedRules(newRules, prefix), extra);
    }
  }

  /** The step the source performs: a current rule is appended exactly when no
      rule already in the growing result has its identity. */
  lemma AppendStep(newRules: seq<DeviceRule>, current: seq<DeviceRule>, c: DeviceRule)
    ensures var grown := MergedRules(newRules, current);
      MergedRules(newRules, current + [c])
        == grown + (if exists r :: r in grown && r.Id() == c.Id() then [] else [c])
  {
    var cur := current + [c];
    assert cur[..|cur| - 1] == current;
    MergedIds(newRules, current);
    var grown := MergedRules(newRules, current);
    assert (exists r :: r in grown && r.Id() == c.Id()) <==> c.Id() in Ids(grown);
  }

  /** Every kept rule comes from the current rules, at most one per identity,
      and none of them shares an identity with a new rule. */
  lemma {:induction false} KeptCurrentFacts(newRules: seq<DeviceRule>, current: seq<DeviceRule>)
    ensures var kept := KeptCurrent(newRules, current);
      && |kept| <= |current|
      && (forall r :: r in kept ==> r in current && r.Id() !in Ids(newRules))
      && (forall i, j :: 0 <= i < j < |kept| ==> kept[i].Id() != kept[j].Id())
    decreases |current|
  {
    if current != [] {
      var prefix := current[..|current| - 1];
      var last := current[|current| - 1];
      KeptCurrentFacts(newRules, prefix);
      var kept := KeptCurrent(newRules, prefix);
      if last.Id() !in Ids(newRules) + Ids(prefix) {
        forall i | 0 <= i < |kept| ensures kept[i].Id() != last.Id() {
          assert kept[i] in prefix;
        }
      }
    }
  }

  /** Current rules whose identities are distinct and absent from the new
      rules are all kept, in their original order. */
  lemma {:induction false} KeptCurrentAll(newRules: seq<DeviceRule>, current: seq<DeviceRule>)
    requires forall r :: r in current ==> r.Id() !in Ids(newRules)
    requires forall i, j :: 0 <= i < j < |current| ==> current[i].Id() != current[j].Id()
    ensures KeptCurrent(newRules, current) == current
    decreases |current|
  {
    if current != [] {
      var prefix := current[..|current| - 1];
      var last := current[|current| - 1];
      assert current == prefix + [last];
      assert forall i :: 0 <= i < |prefix| ==> prefix[i] == current[i];
      KeptCurrentAll(newRules, prefix);
      forall r | r in prefix ensures r.Id() != last.Id() {
        var i :| 0 <= i < |prefix| && prefix[i] == r;
        assert current[i] == r;
      }
      assert last.Id() !in Ids(newRules) + Ids(prefix);
      assert KeptCurrent(newRules, current) == KeptCurrent(newRules, prefix) + [last];
    }
  }

  /** The example documented in the source: with rules {111,111} and
      {222,222} applied, a request to deny {222,222} keeps {111,111}. */
  lemma DocumentedMerge(p: string)
    ensures var a := DeviceRule(CharDevice, 111, 111, p, true);
      var b := DeviceRule(CharDevice, 222, 222, p, true);
      var deny := DeviceRule(CharDevice, 222, 222, p, false);
      MergedRules([deny], [a, b]) == [deny, a]
  {
    var a := DeviceRule(CharDevice, 111, 111, p, true);
    var b := DeviceRule(CharDevice, 222, 222, p, true);
    var deny := DeviceRule(CharDevice, 222, 222, p, false);
    assert [a, b][..1] == [a];
    assert [a][..0] == [];
    assert Ids([]) == {};
    assert Ids([deny]) == {deny.Id()};
    assert Ids([a]) == {a.Id()};
    assert KeptCurrent([deny], [a]) == [a];
    assert KeptCurrent([deny], [a, b]) == [a];
  }

  /** A current rule repeated later in the current list is kept once: the
      later copy meets the earlier one in the growing result. */
  lemma RepeatedCurrentKeptOnce(newRules: seq<DeviceRule>, a: DeviceRule, b: DeviceRule)
    requires a.Id() == b.Id() && a.Id() !in Ids(newRules)
    ensures MergedRules(newRules, [a, b]) == newRules + [a]
  {
    assert [a, b][..1] == [a];
    assert [a][..0] == [];
    assert Ids([]) == {};
    assert Ids([a]) == {a.Id()};
    assert KeptCurrent(newRules, [a]) == [a];
    assert KeptCurrent(newRules, [a, b]) == [a];
  }

  /** Is a rule with the identity of `rule` present in `rulesSlice`? */
  method IsCurrentRulePartOfRequestedRules(rule: DeviceRule, rulesSlice: seq<DeviceRule>) returns (found: bool)
    ensures found <==> rule.Id() in Ids(rulesSlice)
  {
    var i := 0;
    while i < |rulesSlice|
      invariant 0 <= i <= |rulesSlice|
      invariant forall j :: 0 <= j < i ==> rulesSlice[j].Id() != rule.Id()
    {
      var r := rulesSlice[i];
      if r.devType == rule.devType && r.minor == rule.minor && r.major == rule.major {
        assert r in rulesSlice && r.Id() == rule.Id();
        return true;
      }
      i := i + 1;
    }
    return false;
  }

  /** `addCurrentRules`: nil current rules pass the new rules through; nil new
      rules (with non-nil current ones) are an error; otherwise the merge. */
  method AddCurrentRules(currentRules: Slice<DeviceRule>, newRules: Slice<DeviceRule>) returns (r: Result<Slice<DeviceRule>>)
    ensures currentRules.Nil? ==> r == Ok(newRules)
    ensures currentRules.Items? && newRules.Nil? ==> r == Err(NilNewRules)
    ensures currentRules.Items? && newRules.Items? ==>
      r == Ok(Items(MergedRules(newRules.items, currentRules.items)))
  {
    if currentRules.Nil? {
      return Ok(newRules);
    }
    if newRules.Nil? {
      return Err(NilNewRules);
    }
    var current := currentRules.items;
    var result := newRules.items;
    var i := 0;
    while i < |current|
      invariant 0 <= i <= |current|
      invariant result == MergedRules(newRules.items, current[..i])
    {
      var part := IsCurrentRulePartOfRequestedRules(current[i], result);
      AppendStep(newRules.items, current[..i], current[i]);
      assert current[..i + 1] == current[..i] + [current[i]];
      if !part {
        result := result + [current[i]];
      }
      i := i + 1;
    }
    assert current[..i] == current;
    return Ok(Items(result));
  }

  // ---- default device rules --------------------------------------------------

  const PtyFirstMajor: int := 136
  const PtyMajors: int := 16

  function DefaultPermissions(unified: bool): string {
    if unified then "rwm" else "rw"
  }

  function CharAllow(major: int, minor: int, permissions: string): DeviceRule {
    DeviceRule(CharDevice, major, minor, permissions, true)
  }

  /** /dev/ptmx, /dev/null, /dev/kvm, /dev/net/tun and /dev/vhost-net. */
  function FixedDefaultRules(permissions: string): seq<DeviceRule> {
    [CharAllow(5, 2, permissions), CharAllow(1, 3, permissions), CharAllow(10, 232, permissions),
     CharAllow(10, 200, permissions), CharAllow(10, 238, permissions)]
  }

  /** The rule allowing every PTY slave with major 136 + i. */
  function PtyRule(i: int, permissions: string): DeviceRule {
    CharAllow(PtyFirstMajor + i, -1, permissions)
  }

  function PtyRules(n: nat, permissions: string): seq<DeviceRule> {
    seq(n, i => PtyRule(i, permissions))
  }

  /** The default allow-list: 21 char-device allow rules, five fixed devices
      followed by the PTY-slave majors 136..151 with any minor. */
  function DefaultRules(permissions: string): (r: seq<DeviceRule>)
    ensures |r| == 21
    ensures forall x :: x in r ==> x.devType == CharDevice && x.allow && x.permissions == permissions
    ensures r[..5] == FixedDefaultRules(permissions)
    ensures forall i :: 5 <= i < 21 ==> r[i].major == PtyFirstMajor + (i - 5) && r[i].minor == -1
  {
    FixedDefaultRules(permissions) + PtyRules(PtyMajors, permissions)
  }

  /** No two default rules share an identity. */
  lemma DefaultRulesDistinct(permissions: string)
    ensures var d := DefaultRules(permissions);
      forall i, j :: 0 <= i < j < |d| ==> d[i].Id() != d[j].Id()
  {
    var d := DefaultRules(permissions);
    forall i, j | 0 <= i < j < |d| ensures d[i].Id() != d[j].Id() {
      if j >= 5 {
        assert d[j].major == 131 + j && d[j].minor == -1;
        if i >= 5 { assert d[i].major == 131 + i; } else { assert d[i].minor >= 2; }
      }
    }
  }

  /** The identities of the default rules, whatever their permissions. */
  function DefaultIds(): set<DeviceId> {
    Ids(DefaultRules(""))
  }

  lemma IdsPointwise(d: seq<DeviceRule>, e: seq<DeviceRule>)
    requires |d| == |e| && forall i :: 0 <= i < |d| ==> d[i].Id() == e[i].Id()
    ensures Ids(d) == Ids(e)
  {
    forall x | x in Ids(d) ensures x in Ids(e) {
      var i :| 0 <= i < |d| && d[i].Id() == x;
      assert e[i] in e;
    }
    forall x | x in Ids(e) ensures x in Ids(d) {
      var i :| 0 <= i < |e| && e[i].Id() == x;
      assert d[i] in d;
    }
  }

  /** Permissions are payload: the defaults of either mode cover the same identities. */
  lemma DefaultRulesIds(permissions: string)
    ensures Ids(DefaultRules(permissions)) == DefaultIds()
  {
    var d := FixedDefaultRules(permissions) + PtyRules(PtyMajors, permissions);
    var e := FixedDefaultRules("") + PtyRules(PtyMajors, "");
    assert DefaultRules(permissions) == d && DefaultRules("") == e;
    forall i | 0 <= i < 21 ensures d[i].Id() == e[i].Id() {
      DefaultRuleIdAt(permissions, i);
    }
    IdsPointwise(d, e);
  }

  /** The i-th default rule has the same identity whatever the permissions. */
  lemma DefaultRuleIdAt(permissions: string, i: nat)
    requires i < 21
    ensures (FixedDefaultRules(permissions) + PtyRules(PtyMajors, permissions))[i].Id()
      == (FixedDefaultRules("") + PtyRules(PtyMajors, ""))[i].Id()
  {
    var f, g := FixedDefaultRules(permissions), FixedDefaultRules("");
    var pf, pg := PtyRules(PtyMajors, permissions), PtyRules(PtyMajors, "");
    if i < 5 {
      assert (f + pf)[i] == f[i] && (g + pg)[i] == g[i];
      if i == 0 { } else if i == 1 { } else if i == 2 { } else if i == 3 { } else { }
    } else {
      assert (f + pf)[i] == pf[i - 5] && (g + pg)[i] == pg[i - 5];
    }
  }

  /** The package-level memo of the default rules. */
  class DefaultRulesCache {
    var cached: seq<DeviceRule>

    ghost predicate Valid()
      reads this
    {
      cached == [] || cached == DefaultRules(DefaultPermissions(true))
                   || cached == DefaultRules(DefaultPermissions(false))
    }

    constructor ()
      ensures Valid() && cached == []
    {
      cached := [];
    }

    /** `GenerateDefaultDeviceRules`: the memo when it is non-empty, otherwise
        the rules for the host's mode, which are then memoised. */
    method GenerateDefaultDeviceRules(unified: bool) returns (rules: seq<DeviceRule>)
      requires Valid()
      modifies this
      ensures Valid() && cached == rules && |rules| == 21
      ensures old(cached) != [] ==> rules == old(cached)
      ensures old(cached) == [] ==> rules == DefaultRules(DefaultPermissions(unified))
    {
      if |cached| > 0 {
        return cached;
      }
      var permissions := DefaultPermissions(unified);
      var defaultRules := FixedDefaultRules(permissions);
      var i := 0;
      while i < PtyMajors
        invariant 0 <= i <= PtyMajors
        invariant defaultRules == FixedDefaultRules(permissions) + PtyRules(i, permissions)
      {
        assert PtyRules(i + 1, permissions) == PtyRules(i, permissions) + [PtyRule(i, permissions)];
        defaultRules := defaultRules + [PtyRule(i, permissions)];
        i := i + 1;
      }
      cached := defaultRules;
      return defaultRules;
    }
  }

  // ---- the privileged helper -------------------------------------------------

  /** The resources a `Set` applies: the device rules and, opaquely, every other setting. */
  datatype Resources = Resources(devices: Slice<DeviceRule>, settings: map<string, string>)

  /** One argument of the helper's command line. The JSON+base64 payloads are
      kept symbolic: an encoded argument stands for the value it encodes. */
  datatype Arg = Lit(text: string) | EncodedPaths(paths: map<string, string>) | EncodedResources(resources: Resources)

  const VirtChroot: string := "virt-chroot"

  function FormatBool(b: bool): string {
    if b then "true" else "false"
  }

  /** The arguments passed to `virt-chroot`: exactly seven, in this order. */
  function VirtChrootArgs(r: Resources, subsystemPaths: map<string, string>, rootless: bool, version: CgroupVersion): (args: seq<Arg>)
    ensures |args| == 7 && args[0] == Lit("set-cgroups-resources")
    ensures args[1] == Lit("--subsystem-paths") && args[3] == Lit("--resources")
  {
    [Lit("set-cgroups-resources"),
     Lit("--subsystem-paths"), EncodedPaths(subsystemPaths),
     Lit("--resources"), EncodedResources(r),
     Lit("--rootless=" + FormatBool(rootless)),
     Lit("--isV2=" + FormatBool(version == V2))]
  }

  /** The argument vector determines the request: the helper can recover
      resources, paths, the rootless flag and the version from it. */
  lemma VirtChrootArgsInjective(r1: Resources, p1: map<string, string>, rl1: bool, v1: CgroupVersion,
                                r2: Resources, p2: map<string, string>, rl2: bool, v2: CgroupVersion)
    requires VirtChrootArgs(r1, p1, rl1, v1) == VirtChrootArgs(r2, p2, rl2, v2)
    ensures r1 == r2 && p1 == p2 && rl1 == rl2 && v1 == v2
  {
    var a1 := VirtChrootArgs(r1, p1, rl1, v1);
    var a2 := VirtChrootArgs(r2, p2, rl2, v2);
    assert a1[5] == a2[5] && a1[6] == a2[6];
    assert ("--rootless=" + FormatBool(rl1))[11] == ("--rootless=" + FormatBool(rl2))[11];
    assert ("--isV2=" + FormatBool(v1 == V2))[7] == ("--isV2=" + FormatBool(v2 == V2))[7];
  }

  /** `execVirtChrootCgroups`: runs the helper once; its exit status (None for
      success, Some(output) otherwise) is the only success signal. */
  function ExecVirtChrootCgroups(r: Resources, subsystemPaths: map<string, string>, rootless: bool,
                                 version: CgroupVersion, helper: (string, seq<Arg>) -> Option<string>): (err: Option<Error>)
    ensures err.None? <==> helper(VirtChroot, VirtChrootArgs(r, subsystemPaths, rootless, version)).None?
    ensures err.Some? ==> err.value == HelperFailed(helper(VirtChroot, VirtChrootArgs(r, subsystemPaths, rootless, version)).value)
  {
    match helper(VirtChroot, VirtChrootArgs(r, subsystemPaths, rootless, version))
    case None => None
    case Some(output) => Some(HelperFailed(output))
  }

  // ---- thread listing ------------------------------------------------------------

  /** One line of a threads file resolved to its id and executable name. */
  function LineThread(line: string, lookup: int -> Result<string>): Result<(int, string)> {
    match Atoi(line)
    case None => Err(NotAnInteger(line))
    case Some(tid) =>
      match lookup(tid)
      case Err(e) => Err(e)
      case Ok(exe) => Ok((tid, exe))
  }

  /** The ids on `lines` whose executable passes `keep`, in file order; the
      first line that does not parse or resolve fails the whole listing. */
  function ThreadsMatching(lines: seq<string>, lookup: int -> Result<string>, keep: string -> bool): Result<seq<int>>
    decreases |lines|
  {
    if lines == [] then Ok([])
    else
      match ThreadsMatching(lines[..|lines| - 1], lookup, keep)
      case Err(e) => Err(e)
      case Ok(tids) =>
        match LineThread(lines[|lines| - 1], lookup)
        case Err(e) => Err(e)
        case Ok(t) => Ok(tids + if keep(t.1) then [t.0] else [])
  }

  lemma {:induction false} ThreadsMatchingErrPersists(lines: seq<string>, i: nat, lookup: int -> Result<string>, keep: string -> bool)
    requires i <= |lines| && ThreadsMatching(lines[..i], lookup, keep).Err?
    ensures ThreadsMatching(lines, lookup, keep) == ThreadsMatching(lines[..i], lookup, keep)
    decreases |lines| - i
  {
    if i < |lines| {
      assert lines[..i + 1][..i] == lines[..i];
      ThreadsMatchingErrPersists(lines, i + 1, lookup, keep);
    } else {
      assert lines[..i] == lines;
    }
  }

  /** One more line extends a successful listing by that line's id, when it is kept. */
  lemma ThreadsMatchingStep(lines: seq<string>, i: nat, lookup: int -> Result<string>, keep: string -> bool)
    requires i < |lines| && ThreadsMatching(lines[..i], lookup, keep).Ok?
    ensures ThreadsMatching(lines[..i + 1], lookup, keep) ==
      match LineThread(lines[i], lookup)
      case Err(e) => Err(e)
      case Ok(t) => Ok(ThreadsMatching(lines[..i], lookup, keep).value + if keep(t.1) then [t.0] else [])
  {
    assert lines[..i + 1][..i] == lines[..i];
    assert lines[..i + 1][i] == lines[i];
  }

  /** The listing succeeds iff every line parses and resolves, and never holds more ids than lines. */
  lemma {:induction false} ThreadsMatchingOk(lines: seq<string>, lookup: int -> Result<string>, keep: string -> bool)
    ensures var r := ThreadsMatching(lines, lookup, keep);
      && (r.Ok? <==> forall i :: 0 <= i < |lines| ==> LineThread(lines[i], lookup).Ok?)
      && (r.Ok? ==> |r.value| <= |lines|)
    decreases |lines|
  {
    if lines != [] {
      var prefix := lines[..|lines| - 1];
      ThreadsMatchingOk(prefix, lookup, keep);
      assert forall i :: 0 <= i < |prefix| ==> prefix[i] == lines[i];
    }
  }

  /** `id` is the id of some line of `lines` whose executable passes `keep`. */
  ghost predicate FromKeptLine(lines: seq<string>, lookup: int -> Result<string>, keep: string -> bool, id: int) {
    exists i :: 0 <= i < |lines| && LineThread(lines[i], lookup).Ok?
                && LineThread(lines[i], lookup).value.0 == id
                && keep(LineThread(lines[i], lookup).value.1)
  }

  /** Every id of a successful listing comes from a line whose executable passes the filter. */
  lemma {:induction false} ThreadsMatchingSound(lines: seq<string>, lookup: int -> Result<string>, keep: string -> bool)
    requires ThreadsMatching(lines, lookup, keep).Ok?
    ensures forall id :: id in ThreadsMatching(lines, lookup, keep).value ==> FromKeptLine(lines, lookup, keep, id)
    decreases |lines|
  {
    if lines == [] {
      return;
    }
    var prefix := lines[..|lines| - 1];
    var last := |lines| - 1;
    var pt := ThreadsMatching(prefix, lookup, keep).value;
    ThreadsMatchingSound(prefix, lookup, keep);
    forall id | id in ThreadsMatching(lines, lookup, keep).value
      ensures FromKeptLine(lines, lookup, keep, id)
    {
      if id in pt {
        var i :| 0 <= i < |prefix| && LineThread(prefix[i], lookup).Ok?
                    && LineThread(prefix[i], lookup).value.0 == id
                    && keep(LineThread(prefix[i], lookup).value.1);
        assert prefix[i] == lines[i];
      } else {
        assert LineThread(lines[last], lookup).value.0 == id;
      }
    }
  }

  /** One line of a successful listing: it resolved, and its id is listed when its executable is kept. */
  lemma {:induction false} ThreadsMatchingCompleteAt(lines: seq<string>, i: nat, lookup: int -> Result<string>, keep: string -> bool)
    requires i < |lines| && ThreadsMatching(lines, lookup, keep).Ok?
    ensures LineThread(lines[i], lookup).Ok?
    ensures keep(LineThread(lines[i], lookup).value.1) ==>
      LineThread(lines[i], lookup).value.0 in ThreadsMatching(lines, lookup, keep).value
    decreases |lines|
  {
    var prefix := lines[..|lines| - 1];
    assert ThreadsMatching(prefix, lookup, keep).Ok?;
    var before := ThreadsMatching(prefix, lookup, keep).value;
    var t := LineThread(lines[|lines| - 1], lookup).value;
    assert ThreadsMatching(lines, lookup, keep).value == before + (if keep(t.1) then [t.0] else []);
    if i < |prefix| {
      assert prefix[i] == lines[i];
      ThreadsMatchingCompleteAt(prefix, i, lookup, keep);
    }
  }

  /** A line that resolves, and whose id is among `tids` when its executable is kept. */
  predicate LineListed(line: string, lookup: int -> Result<string>, keep: string -> bool, tids: seq<int>) {
    LineThread(line, lookup).Ok? &&
    (keep(LineThread(line, lookup).value.1) ==> LineThread(line, lookup).value.0 in tids)
  }

  /** Every line whose executable passes the filter contributes its id to a successful listing. */
  lemma ThreadsMatchingComplete(lines: seq<string>, lookup: int -> Result<string>, keep: string -> bool)
    requires ThreadsMatching(lines, lookup, keep).Ok?
    ensures var tids := ThreadsMatching(lines, lookup, keep).value;
      forall i :: 0 <= i < |lines| ==> LineListed(lines[i], lookup, keep, tids)
  {
    var tids := ThreadsMatching(lines, lookup, keep).value;
    forall i | 0 <= i < |lines|
      ensures LineListed(lines[i], lookup, keep, tids)
    {
      ThreadsMatchingCompleteAt(lines, i, lookup, keep);
    }
  }

  /** A file none of whose executables passes the filter lists nothing. */
  lemma {:induction false} ThreadsMatchingNoneKept(lines: seq<string>, lookup: int -> Result<string>, keep: string -> bool)
    requires forall i :: 0 <= i < |lines| ==> LineThread(lines[i], lookup).Ok? && !keep(LineThread(lines[i], lookup).value.1)
    ensures ThreadsMatching(lines, lookup, keep) == Ok([])
    decreases |lines|
  {
    if lines != [] {
      var prefix := lines[..|lines| - 1];
      assert forall i :: 0 <= i < |prefix| ==> prefix[i] == lines[i];
      ThreadsMatchingNoneKept(prefix, lookup, keep);
      var last := LineThread(lines[|lines| - 1], lookup);
      assert last.Ok? && !keep(last.value.1);
      var none: seq<int> := [];
      assert ThreadsMatching(lines, lookup, keep) == Ok(none + none);
      assert none + none == none;
    }
  }

  /** With the accept-all filter, the listing is every line's id, in file order. */
  lemma {:induction false} ThreadsMatchingAll(lines: seq<string>, lookup: int -> Result<string>)
    requires ThreadsMatching(lines, lookup, _ => true).Ok?
    ensures var tids := ThreadsMatching(lines, lookup, _ => true).value;
      |tids| == |lines| && forall i :: 0 <= i < |lines| ==> Atoi(lines[i]) == Some(tids[i])
    decreases |lines|
  {
    if lines != [] {
      var prefix := lines[..|lines| - 1];
      ThreadsMatchingAll(prefix, lookup);
      assert forall i :: 0 <= i < |prefix| ==> prefix[i] == lines[i];
    }
  }

  /** The first id of a listing comes from the first line whose executable passes the filter. */
  lemma {:induction false} ThreadsMatchingFirst(lines: seq<string>, lookup: int -> Result<string>, keep: string -> bool)
    requires ThreadsMatching(lines, lookup, keep).Ok? && ThreadsMatching(lines, lookup, keep).value != []
    ensures exists i :: (0 <= i < |lines|
      && LineThread(lines[i], lookup).Ok?
      && LineThread(lines[i], lookup).value.0 == ThreadsMatching(lines, lookup, keep).value[0]
      && keep(LineThread(lines[i], lookup).value.1)
      && forall j :: 0 <= j < i ==> LineThread(lines[j], lookup).Ok? && !keep(LineThread(lines[j], lookup).value.1))
    decreases |lines|
  {
    var prefix := lines[..|lines| - 1];
    var pr := ThreadsMatching(prefix, lookup, keep);
    assert forall i :: 0 <= i < |prefix| ==> prefix[i] == lines[i];
    ThreadsMatchingOk(lines, lookup, keep);
    ThreadsMatchingComplete(prefix, lookup, keep);
    if pr.value != [] {
      ThreadsMatchingFirst(prefix, lookup, keep);
    } else {
      var i := |lines| - 1;
      assert forall j :: 0 <= j < i ==> LineThread(lines[j], lookup).Ok? && !keep(LineThread(lines[j], lookup).value.1);
    }
  }

  /** The listing of a threads file whose read may have failed. */
  function ThreadsOfFile(content: Result<string>, lookup: int -> Result<string>, keep: string -> bool): Result<seq<int>> {
    match content
    case Err(e) => Err(e)
    case Ok(c) => ThreadsMatching(Lines(c), lookup, keep)
  }

  function KeepOf(filter: Option<string -> bool>): string -> bool {
    if filter.None? then _ => true else filter.value
  }

  /** `getCgroupThreadsHelper`: the ids listed in `targetFilePath` under the
      manager's cpuset directory whose executable passes `filter` (all of them
      for a nil filter). */
  method GetCgroupThreadsHelper(subSysPath: Result<string>, targetFilePath: string, fs: FileSystem,
                                lookup: int -> Result<string>, filter: Option<string -> bool>)
    returns (r: Result<seq<int>>)
    ensures subSysPath.Err? ==> r == Err(subSysPath.error)
    ensures subSysPath.Ok? ==>
      r == ThreadsOfFile(fs.ReadFile(Join(subSysPath.value, targetFilePath)), lookup, KeepOf(filter))
  {
    var keep := KeepOf(filter);
    var tIds: seq<int> := [];
    if subSysPath.Err? {
      return Err(subSysPath.error);
    }
    var targetFile := fs.ReadFile(Join(subSysPath.value, targetFilePath));
    if targetFile.Err? {
      return Err(targetFile.error);
    }
    var lines := Lines(targetFile.value);
    var i := 0;
    while i < |lines|
      invariant 0 <= i <= |lines|
      invariant ThreadsMatching(lines[..i], lookup, keep) == Ok(tIds)
    {
      ThreadsMatchingStep(lines, i, lookup, keep);
      ghost var before := tIds;
      var line := lines[i];
      var tid := Atoi(line);
      if tid.None? {
        ThreadsMatchingErrPersists(lines, i + 1, lookup, keep);
        return Err(NotAnInteger(line));
      }
      var process := lookup(tid.value);
      if process.Err? {
        ThreadsMatchingErrPersists(lines, i + 1, lookup, keep);
        return Err(process.error);
      }
      assert LineThread(line, lookup) == Ok((tid.value, process.value));
      if keep(process.value) {
        tIds := tIds + [tid.value];
      }
      assert tIds == before + if keep(process.value) then [tid.value] else [];
      assert ThreadsMatching(lines[..i + 1], lookup, keep) == Ok(tIds);
      i := i + 1;
    }
    assert lines[..i] == lines;
    return Ok(tIds);
  }

  // ---- cpusets -----------------------------------------------------------------

  /** `setCpuSetHelper`: writes the range-list spelling of `cpusList`, produced
      by the cpuset formatter `format`, to cpuset.cpus in the cpuset directory. */
  method SetCpuSetHelper(subSysPath: Result<string>, cpusList: seq<int>, fs: FileSystem,
                         format: seq<int> -> Result<string>) returns (err: Option<Error>)
    modifies fs
    ensures subSysPath.Err? ==> err == Some(subSysPath.error) && fs.state == old(fs.state)
    ensures subSysPath.Ok? && format(cpusList).Err? ==> err == Some(format(cpusList).error) && fs.state == old(fs.state)
    ensures subSysPath.Ok? && format(cpusList).Ok? ==>
      (fs.state, err.None?) == Perform(old(fs.state), Write(Join(subSysPath.value, "cpuset.cpus"), format(cpusList).value), fs.failing)
  {
    if subSysPath.Err? {
      return Some(subSysPath.error);
    }
    var cpusetStr := format(cpusList);
    if cpusetStr.Err? {
      return Some(cpusetStr.error);
    }
    err := fs.WriteFile(subSysPath.value, "cpuset.cpus", cpusetStr.value);
  }

  /** util.go's `getCpuSetPath`: the trimmed content of `cpusetFile` in the
      cpuset directory, parsed by the cpuset parser `parse` (limit 5000). */
  function GetCpuSetList(subSysPath: Result<string>, cpusetFile: string, fs: FileSystem,
                         parse: (string, int) -> Result<seq<int>>): (r: Result<seq<int>>)
    reads fs
    ensures subSysPath.Err? ==> r == Err(subSysPath.error)
    ensures subSysPath.Ok? && fs.ReadFile(Join(subSysPath.value, cpusetFile)).Err? ==>
      r == Err(fs.ReadFile(Join(subSysPath.value, cpusetFile)).error)
  {
    if subSysPath.Err? then Err(subSysPath.error)
    else
      match fs.ReadFile(Join(subSysPath.value, cpusetFile))
      case Err(e) => Err(e)
      case Ok(content) => parse(TrimSpace(content), 5000)
  }

  // ---- path normalisation ----------------------------------------------------------

  /** The unified-mode rewrite of the "" entry. */
  function FormatUnifiedPath(p: string): string {
    if !HasPrefix(p, CgroupBasePath) then Join(CgroupBasePath, p)
    else if HasPrefix(p, HostRootPath) then ReplaceAll(p, HostRootPath, "")
    else p
  }

  /** The v1 rewrite of one subsystem's path. The subsystem and "/" joins use
      the original path, not the stripped one, as the source does. An empty
      path is left alone; any other path comes out holding a '/'. */
  function FormatV1Path(subsystem: string, path: string): (r: string)
    ensures path == "" ==> r == ""
    ensures path != "" ==> Contains(r, "/")
  {
    if path == "" then path
    else
      var stripped :=
        if Contains(path, HostCgroupBasePath) then ReplaceAll(path, HostCgroupBasePath, "")
        else if Contains(path, CgroupBasePath) then ReplaceAll(path, CgroupBasePath, "")
        else path;
      var withSubsystem := if !Contains(stripped, subsystem) then Join(subsystem, path) else stripped;
      if !Contains(withSubsystem, "/") then
        JoinOntoRoot(path);
        assert HasPrefix(Join("/", path), "/");
        Join("/", path)
      else withSubsystem
  }

  /** The map `formatCgroupPaths` leaves behind. In unified mode only the ""
      entry is rewritten, and it is written even when it was absent; the
      rewritten path lies under /sys/fs/cgroup. In v1 mode every entry is
      rewritten: empty paths stay empty and every other one holds a '/'. */
  function FormattedPaths(m: map<string, string>, unified: bool): (r: map<string, string>)
    ensures unified ==> r.Keys == m.Keys + {""} && forall k :: k in m && k != "" ==> r[k] == m[k]
    ensures unified ==> HasPrefix(r[""], CgroupBasePath)
    ensures !unified ==> r.Keys == m.Keys && forall k :: k in m && m[k] == "" ==> r[k] == ""
    ensures !unified ==> forall k :: k in m && m[k] != "" ==> Contains(r[k], "/")
  {
    if unified then
      var p := if "" in m then m[""] else "";
      UnifiedPathUnderCgroupRoot(p);
      m["" := FormatUnifiedPath(p)]
    else map k | k in m :: FormatV1Path(k, m[k])
  }

  /** In unified mode the cgroup path always lies under /sys/fs/cgroup. */
  lemma UnifiedPathUnderCgroupRoot(p: string)
    ensures HasPrefix(FormatUnifiedPath(p), CgroupBasePath)
  {
    if !HasPrefix(p, CgroupBasePath) && p != "" {
      var t := TrimLeadingSlashes(p);
      assert TrimTrailingSlashes(CgroupBasePath) == CgroupBasePath;
      if t == "" {
        assert Join(CgroupBasePath, p) == CgroupBasePath;
      } else {
        assert Join(CgroupBasePath, p) == CgroupBasePath + "/" + t;
      }
    } else if HasPrefix(p, CgroupBasePath) {
      HostRootBranchUnreachable(p);
    }
  }

  /** The host-root branch of the unified rewrite never runs: no path starts
      with both /sys/fs/cgroup and /proc/1/root. */
  lemma HostRootBranchUnreachable(p: string)
    requires HasPrefix(p, CgroupBasePath)
    ensures !HasPrefix(p, HostRootPath)
  {
    assert p[1] == 's';
  }

  /** The unified rewrite is idempotent. */
  lemma FormatUnifiedPathIdempotent(p: string)
    ensures FormatUnifiedPath(FormatUnifiedPath(p)) == FormatUnifiedPath(p)
  {
    UnifiedPathUnderCgroupRoot(p);
    HostRootBranchUnreachable(FormatUnifiedPath(p));
  }

  /** A v1 path under the host's cgroup root that names its subsystem is made
      relative to that root. */
  lemma V1HostPathRelativised(subsystem: string, rest: string)
    requires !Contains(rest, HostCgroupBasePath) && Contains(rest, subsystem) && Contains(rest, "/")
    ensures FormatV1Path(subsystem, HostCgroupBasePath + rest) == rest
  {
    var path := HostCgroupBasePath + rest;
    assert HasPrefix(path, HostCgroupBasePath);
    ReplaceAllLeadingOnly(HostCgroupBasePath, rest);
  }

  /** The cgroup root "/" in unified mode is the cgroup mount point itself. */
  lemma FormatUnifiedRootPath()
    ensures FormatUnifiedPath("/") == CgroupBasePath
  {
    assert !HasPrefix("/", CgroupBasePath);
    assert TrimTrailingSlashes(CgroupBasePath) == CgroupBasePath;
    assert TrimLeadingSlashes("/") == "";
  }

  /** A v1 subsystem mounted at the cgroup root "/" keeps the root path. */
  lemma FormatV1RootPath(subsystem: string)
    requires Element(subsystem)
    ensures FormatV1Path(subsystem, "/") == "/"
  {
    assert !Contains("/", HostCgroupBasePath) && !Contains("/", CgroupBasePath);
    assert !Contains("/", subsystem) by {
      assert subsystem[0] != '/' && subsystem != "/";
      assert !HasPrefix("/", subsystem) && !Contains("", subsystem);
    }
    assert TrimLeadingSlashes("/") == "";
    assert Join(subsystem, "/") == subsystem;
    NotContainsWithoutFirst(subsystem, "/");
    JoinOntoRoot("/");
  }

  /** A v1 path already relative to the cgroup mount, naming its subsystem
      and holding a '/', is left as it is. */
  lemma V1RelativePathKept(subsystem: string, path: string)
    requires path != "" && !Contains(path, HostCgroupBasePath) && !Contains(path, CgroupBasePath)
    requires Contains(path, subsystem) && Contains(path, "/")
    ensures FormatV1Path(subsystem, path) == path
  {
  }

  /** A v1 path that does not name its subsystem is put under a directory named after it. */
  lemma V1PathGetsSubsystem(subsystem: string, path: string)
    requires Element(subsystem) && TrimLeadingSlashes(path) != ""
    requires !Contains(path, HostCgroupBasePath) && !Contains(path, CgroupBasePath) && !Contains(path, subsystem)
    ensures FormatV1Path(subsystem, path) == subsystem + "/" + TrimLeadingSlashes(path)
  {
    var r := subsystem + "/" + TrimLeadingSlashes(path);
    assert TrimTrailingSlashes(subsystem) == subsystem;
    assert Join(subsystem, path) == r;
    ContainsAt(r, "/", |subsystem|);
  }

  /** A Go map the source rewrites in place. */
  class PathMap {
    var entries: map<string, string>

    constructor (entries: map<string, string>)
      ensures this.entries == entries
    {
      this.entries := entries;
    }
  }

  /** `formatCgroupPaths`: rewrites the controller paths in place. */
  method FormatCgroupPaths(controllerPaths: PathMap, unified: bool)
    modifies controllerPaths
    ensures controllerPaths.entries == FormattedPaths(old(controllerPaths.entries), unified)
  {
    if unified {
      var newPath := if "" in controllerPaths.entries then controllerPaths.entries[""] else "";
      if !HasPrefix(newPath, CgroupBasePath) {
        newPath := Join(CgroupBasePath, newPath);
      } else if HasPrefix(newPath, HostRootPath) {
        newPath := ReplaceAll(newPath, HostRootPath, "");
      }
      controllerPaths.entries := controllerPaths.entries["" := newPath];
    } else {
      ghost var original := controllerPaths.entries;
      var pending := controllerPaths.entries.Keys;
      while pending != {}
        invariant pending <= original.Keys
        invariant controllerPaths.entries.Keys == original.Keys
        invariant forall k :: k in original ==>
          controllerPaths.entries[k] == if k in pending then original[k] else FormatV1Path(k, original[k])
        decreases pending
      {
        var subsystem :| subsystem in pending;
        var path := controllerPaths.entries[subsystem];
        pending := pending - {subsystem};
        if path == "" {
          continue;
        }
        var newPath := path;
        if Contains(newPath, HostCgroupBasePath) {
          newPath := ReplaceAll(newPath, HostCgroupBasePath, "");
        } else if Contains(newPath, CgroupBasePath) {
          newPath := ReplaceAll(newPath, CgroupBasePath, "");
        }
        if !Contains(newPath, subsystem) {
          newPath := Join(subsystem, path);
        }
        if !Contains(newPath, "/") {
          newPath := Join("/", path);
        }
        controllerPaths.entries := controllerPaths.entries[subsystem := newPath];
      }
    }
  }
}
