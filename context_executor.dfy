/** selinux/context_executor.go: running a command under another process's
    SELinux label. The executor's calls into the host (libselinux, the
    thread lock, close-on-exec, running the command) are recorded as a trace
    of events; what the host answers is fixed by a `Host` value. */
module SELinux {
  import opened Wrappers
  import opened Text

  /** The file descriptors closed on exec are [MinFdToCloseOnExec, MaxFdToCloseOnExec). */
  const MinFdToCloseOnExec := 3
  const MaxFdToCloseOnExec := 256

  /** The pid that stands for "no pid given". */
  const EmptyPid := -1

  /** The command to run: its program and arguments. */
  datatype Command = Command(path: string, args: seq<string>)

  /** Every call the context executor makes on its executor. */
  datatype Event =
    | NewSELinux
    | FileLabel(path: string)
    | LockOSThread
    | UnlockOSThread
    | SetExecLabel(execLabel: string)
    | CloseOnExec(fd: int)
    | Run(cmd: Command)

  /** What the host answers: whether libselinux reports SELinux as enabled
      (and whether asking fails), the label of each labelled file, the exec
      labels the kernel refuses, and how running the command ends. */
  datatype Host = Host(selinuxReports: bool, selinuxError: Option<Error>, fileLabels: map<string, string>,
                       rejectedLabels: set<string>, runError: Option<Error>)

  /** `isSELinuxEnabled`: SELinux counts as enabled only when asking succeeds and says so. */
  predicate SELinuxEnabled(h: Host) {
    h.selinuxError.None? && h.selinuxReports
  }

  /** "/proc/<pid>/attr/current": where a process's SELinux label is read. */
  function LabelPath(pid: int): string {
    "/proc/" + Itoa(pid) + "/attr/current"
  }

  /** `CloseOnExec` for every fd from `lo` up to but excluding `hi`, in order. */
  function CloseRange(lo: int, hi: int): (r: seq<Event>)
    requires lo <= hi
  {
    seq(hi - lo, k => CloseOnExec(lo + k))
  }

  /** The range closes exactly the fds in [lo, hi) and does nothing else. */
  lemma CloseRangeCloses(lo: int, hi: int)
    requires lo <= hi
    ensures forall e :: e in CloseRange(lo, hi) <==> e.CloseOnExec? && lo <= e.fd < hi
  {
    var r := CloseRange(lo, hi);
    forall e: Event | e.CloseOnExec? && lo <= e.fd < hi
      ensures e in r
    {
      assert r[e.fd - lo] == e;
    }
  }

  /** The labels a context executor is built with. */
  datatype Labels = Labels(desired: string, original: string)

  /** `getLabelForPID`: the label of /proc/<pid>/attr/current, or an error naming the pid. */
  function LabelFor(h: Host, pid: int): (r: Result<string>)
    ensures r.Ok? <==> LabelPath(pid) in h.fileLabels
    ensures r.Ok? ==> r.value == h.fileLabels[LabelPath(pid)]
    ensures r.Err? ==> r.error == LabelUnavailable(pid)
  {
    if LabelPath(pid) in h.fileLabels then Ok(h.fileLabels[LabelPath(pid)]) else Err(LabelUnavailable(pid))
  }

  /** What `newContextExecutor` settles on, with the executor calls it makes:
      a missing pid together with a missing label is refused before any call;
      with SELinux enabled a missing label is read from the pid's label file
      and the original label from the agent's own (`ownPid`); with SELinux
      disabled both labels stay empty. */
  function Construction(h: Host, pid: int, desiredLabel: string, ownPid: int): (r: (Result<Labels>, seq<Event>))
    ensures r.0 == Err(NoPidOrLabel) <==> pid == EmptyPid && desiredLabel == ""
    ensures r.0 == Err(NoPidOrLabel) ==> r.1 == []
    ensures r.0 != Err(NoPidOrLabel) ==> r.1 != [] && r.1[0] == NewSELinux
    ensures r.0 != Err(NoPidOrLabel) && !SELinuxEnabled(h) ==> r == (Ok(Labels("", "")), [NewSELinux])
    ensures SELinuxEnabled(h) && r.0 != Err(NoPidOrLabel) ==>
      (r.0.Ok? <==> (desiredLabel == "" ==> LabelPath(pid) in h.fileLabels) && LabelPath(ownPid) in h.fileLabels)
    ensures SELinuxEnabled(h) && r.0.Ok? ==>
      && r.0.value.desired == (if desiredLabel == "" then h.fileLabels[LabelPath(pid)] else desiredLabel)
      && r.0.value.original == h.fileLabels[LabelPath(ownPid)]
    ensures forall e :: e in r.1 ==> e.NewSELinux? || e.FileLabel?
  {
    if pid == EmptyPid && desiredLabel == "" then (Err(NoPidOrLabel), [])
    else if !SELinuxEnabled(h) then (Ok(Labels("", "")), [NewSELinux])
    else if desiredLabel == "" && LabelFor(h, pid).Err? then
      (Err(LabelFor(h, pid).error), [NewSELinux, FileLabel(LabelPath(pid))])
    else
      var desired := if desiredLabel == "" then LabelFor(h, pid).value else desiredLabel;
      var pidRead := if desiredLabel == "" then [FileLabel(LabelPath(pid))] else [];
      var own := LabelFor(h, ownPid);
      if own.Err? then (Err(own.error), [NewSELinux] + pidRead + [FileLabel(LabelPath(ownPid))])
      else (Ok(Labels(desired, own.value)), [NewSELinux] + pidRead + [FileLabel(LabelPath(ownPid))])
  }

  /** What `Execute` returns, with the executor calls it makes. */
  function Execution(h: Host, cmd: Command, pid: int, labels: Labels): (r: (Option<Error>, seq<Event>))
    // the desired label is set under the thread lock before anything else
    ensures SELinuxEnabled(h) ==> |r.1| >= 3 && r.1[..3] == [NewSELinux, LockOSThread, SetExecLabel(labels.desired)]
    // a refused desired label ends it there: no run, no reset, the thread stays locked
    ensures SELinuxEnabled(h) && labels.desired in h.rejectedLabels ==>
      r == (Some(SwitchContextFailed(labels.desired)), [NewSELinux, LockOSThread, SetExecLabel(labels.desired)])
    // otherwise the original label is restored and the thread unlocked after the run, however it ended
    ensures SELinuxEnabled(h) && labels.desired !in h.rejectedLabels ==>
      |r.1| >= 3 && r.1[|r.1| - 3..] == [Run(cmd), SetExecLabel(labels.original), UnlockOSThread]
    // without SELinux there is no label or lock call, and the run comes last
    ensures !SELinuxEnabled(h) ==> r.1 != [] && r.1[|r.1| - 1] == Run(cmd)
    ensures !SELinuxEnabled(h) ==>
      forall e :: e in r.1 ==> !(e.LockOSThread? || e.UnlockOSThread? || e.SetExecLabel? || e.FileLabel?)
    // a failed run is reported with the pid; a run that succeeds after a successful switch is a success
    ensures (SELinuxEnabled(h) ==> labels.desired !in h.rejectedLabels) ==>
      r.0 == (if h.runError.Some? then Some(ExecuteFailed(pid)) else None)
  {
    var run := CloseRange(MinFdToCloseOnExec, MaxFdToCloseOnExec) + [Run(cmd)];
    if !SELinuxEnabled(h) then
      CloseRangeCloses(MinFdToCloseOnExec, MaxFdToCloseOnExec);
      (if h.runError.Some? then Some(ExecuteFailed(pid)) else None, [NewSELinux] + run)
    else
      var switch := [NewSELinux, LockOSThread, SetExecLabel(labels.desired)];
      if labels.desired in h.rejectedLabels then (Some(SwitchContextFailed(labels.desired)), switch)
      else
        (if h.runError.Some? then Some(ExecuteFailed(pid)) else None,
         switch + run + [SetExecLabel(labels.original), UnlockOSThread])
  }

  /** Whenever the command runs, exactly fds 3..255 have been marked
      close-on-exec, in increasing order, right before it. */
  lemma ExecutionClosesFdsBeforeRun(h: Host, cmd: Command, pid: int, labels: Labels)
    requires SELinuxEnabled(h) ==> labels.desired !in h.rejectedLabels
    ensures var events := Execution(h, cmd, pid, labels).1;
      var k := if SELinuxEnabled(h) then 3 else 1;
      && |events| >= k + 254
      && (forall j :: k <= j < k + 253 ==> events[j] == CloseOnExec(MinFdToCloseOnExec + j - k))
      && events[k + 253] == Run(cmd)
      && (forall e :: e in events && e.CloseOnExec? <==> e.CloseOnExec? && MinFdToCloseOnExec <= e.fd < MaxFdToCloseOnExec)
  {
    var events := Execution(h, cmd, pid, labels).1;
    var k := if SELinuxEnabled(h) then 3 else 1;
    var closes := CloseRange(MinFdToCloseOnExec, MaxFdToCloseOnExec);
    CloseRangeCloses(MinFdToCloseOnExec, MaxFdToCloseOnExec);
    assert events[k..k + 253] == closes;
    assert events[k + 253] == Run(cmd);
    forall e: Event | e in events && e.CloseOnExec?
      ensures e in closes
    {
      var i :| 0 <= i < |events| && events[i] == e;
      if i >= k && i < k + 253 {
        assert closes[i - k] == e;
      }
    }
    forall e: Event | e in closes
      ensures e in events
    {
      var i :| 0 <= i < |closes| && closes[i] == e;
      assert events[k + i] == e;
    }
  }

  /** The host side of the executor: answers come from `host`, every call is
      appended to `trace`. */
  class Executor {
    var trace: seq<Event>
    const host: Host

    constructor (host: Host)
      ensures this.host == host && trace == []
    {
      this.host := host;
      trace := [];
    }

    /** `NewSELinux`: whether SELinux is enabled, or the error asking gave. */
    method NewSELinux() returns (enabled: bool, err: Option<Error>)
      modifies this
      ensures trace == old(trace) + [Event.NewSELinux]
      ensures enabled == host.selinuxReports && err == host.selinuxError
    {
      trace := trace + [Event.NewSELinux];
      enabled, err := host.selinuxReports, host.selinuxError;
    }

    /** `FileLabel`: the SELinux label of the file at `path`. */
    method FileLabel(path: string) returns (r: Result<string>)
      modifies this
      ensures trace == old(trace) + [Event.FileLabel(path)]
      ensures r.Ok? <==> path in host.fileLabels
      ensures r.Ok? ==> r.value == host.fileLabels[path]
    {
      trace := trace + [Event.FileLabel(path)];
      r := if path in host.fileLabels then Ok(host.fileLabels[path]) else Err(External("getfilecon " + path));
    }

    method LockOSThread()
      modifies this
      ensures trace == old(trace) + [Event.LockOSThread]
    {
      trace := trace + [Event.LockOSThread];
    }

    method UnlockOSThread()
      modifies this
      ensures trace == old(trace) + [Event.UnlockOSThread]
    {
      trace := trace + [Event.UnlockOSThread];
    }

    /** `SetExecLabel`: the label the next exec from this thread runs under. */
    method SetExecLabel(execLabel: string) returns (err: Option<Error>)
      modifies this
      ensures trace == old(trace) + [Event.SetExecLabel(execLabel)]
      ensures err.Some? <==> execLabel in host.rejectedLabels
    {
      trace := trace + [Event.SetExecLabel(execLabel)];
      err := if execLabel in host.rejectedLabels then Some(External("setexeccon " + execLabel)) else None;
    }

    method CloseOnExec(fd: int)
      modifies this
      ensures trace == old(trace) + [Event.CloseOnExec(fd)]
    {
      trace := trace + [Event.CloseOnExec(fd)];
    }

    method Run(cmd: Command) returns (err: Option<Error>)
      modifies this
      ensures trace == old(trace) + [Event.Run(cmd)]
      ensures err == host.runError
    {
      trace := trace + [Event.Run(cmd)];
      err := host.runError;
    }
  }

  class ContextExecutor {
    const cmdToExecute: Command
    var desiredLabel: string
    var originalLabel: string
    const pid: int
    const executor: Executor

    constructor (cmd: Command, pid: int, executor: Executor)
      ensures cmdToExecute == cmd && this.pid == pid && this.executor == executor
      ensures desiredLabel == "" && originalLabel == ""
    {
      cmdToExecute := cmd;
      this.pid := pid;
      this.executor := executor;
      desiredLabel := "";
      originalLabel := "";
    }

    /** `isSELinuxEnabled`. */
    method IsSELinuxEnabled() returns (enabled: bool)
      modifies executor
      ensures executor.trace == old(executor.trace) + [NewSELinux]
      ensures enabled == SELinuxEnabled(executor.host)
    {
      var selinuxEnabled, err := executor.NewSELinux();
      enabled := err.None? && selinuxEnabled;
    }

    /** `getLabelForPID`. */
    method GetLabelForPid(p: int) returns (r: Result<string>)
      modifies executor
      ensures executor.trace == old(executor.trace) + [FileLabel(LabelPath(p))]
      ensures r == LabelFor(executor.host, p)
    {
      var fileLabel := executor.FileLabel(LabelPath(p));
      if fileLabel.Err? {
        return Err(LabelUnavailable(p));
      }
      return Ok(fileLabel.value);
    }

    /** `setDesiredContext`: lock the thread, then set the desired exec label. */
    method SetDesiredContext() returns (err: Option<Error>)
      modifies executor
      ensures executor.trace == old(executor.trace) + [LockOSThread, SetExecLabel(desiredLabel)]
      ensures err.Some? <==> desiredLabel in executor.host.rejectedLabels
      ensures err.Some? ==> err.value == SwitchContextFailed(desiredLabel)
    {
      executor.LockOSThread();
      var e := executor.SetExecLabel(desiredLabel);
      if e.Some? {
        return Some(SwitchContextFailed(desiredLabel));
      }
      return None;
    }

    /** `resetContext`: restore the original exec label, then unlock the thread
        (deferred, so it happens whatever the restore returns). */
    method ResetContext() returns (err: Option<Error>)
      modifies executor
      ensures executor.trace == old(executor.trace) + [SetExecLabel(originalLabel), UnlockOSThread]
      ensures err.Some? <==> originalLabel in executor.host.rejectedLabels
    {
      err := executor.SetExecLabel(originalLabel);
      executor.UnlockOSThread();
    }

    /** `preventFDLeakOntoChild`: keep stdin, stdout and stderr, mark every
        other fd up to 255 close-on-exec. */
    method PreventFdLeakOntoChild()
      modifies executor
      ensures executor.trace == old(executor.trace) + CloseRange(MinFdToCloseOnExec, MaxFdToCloseOnExec)
    {
      var fd := MinFdToCloseOnExec;
      while fd < MaxFdToCloseOnExec
        invariant MinFdToCloseOnExec <= fd <= MaxFdToCloseOnExec
        invariant executor.trace == old(executor.trace) + CloseRange(MinFdToCloseOnExec, fd)
      {
        executor.CloseOnExec(fd);
        assert CloseRange(MinFdToCloseOnExec, fd + 1) == CloseRange(MinFdToCloseOnExec, fd) + [CloseOnExec(fd)];
        fd := fd + 1;
      }
    }

    /** `Execute`: the desired label is in force for the run, the original one after it. */
    method Execute() returns (err: Option<Error>)
      modifies executor
      ensures var r := Execution(executor.host, cmdToExecute, pid, Labels(desiredLabel, originalLabel));
        err == r.0 && executor.trace == old(executor.trace) + r.1
    {
      ghost var start := executor.trace;
      ghost var run := CloseRange(MinFdToCloseOnExec, MaxFdToCloseOnExec) + [Run(cmdToExecute)];
      var enabled := IsSELinuxEnabled();
      ghost var head := [NewSELinux];
      if enabled {
        err := SetDesiredContext();
        head := [NewSELinux, LockOSThread, SetExecLabel(desiredLabel)];
        assert executor.trace == start + head;
        if err.Some? {
          return;
        }
      }
      PreventFdLeakOntoChild();
      var runErr := executor.Run(cmdToExecute);
      assert executor.trace == start + (head + run);
      err := if runErr.Some? then Some(ExecuteFailed(pid)) else None;
      if enabled {
        var _ := ResetContext();
        assert executor.trace == start + (head + run + [SetExecLabel(originalLabel), UnlockOSThread]);
      }
    }
  }

  /** `newContextExecutor`: refuses a missing pid together with a missing
      label before calling the executor, then settles the labels. */
  method NewContextExecutor(cmd: Command, pid: int, desiredLabel: string, executor: Executor, ownPid: int)
    returns (r: Result<ContextExecutor>)
    modifies executor
    ensures var c := Construction(executor.host, pid, desiredLabel, ownPid);
      && executor.trace == old(executor.trace) + c.1
      && (r.Ok? <==> c.0.Ok?)
      && (r.Err? ==> r.error == c.0.error)
      && (r.Ok? ==> (fresh(r.value) && r.value.executor == executor && r.value.pid == pid
            && r.value.cmdToExecute == cmd
            && Labels(r.value.desiredLabel, r.value.originalLabel) == c.0.value))
  {
    if pid == EmptyPid && desiredLabel == "" {
      return Err(NoPidOrLabel);
    }
    var ce := new ContextExecutor(cmd, pid, executor);
    var enabled := ce.IsSELinuxEnabled();
    if enabled {
      var desired := desiredLabel;
      if desired == "" {
        var pidLabel := ce.GetLabelForPid(pid);
        if pidLabel.Err? {
          return Err(pidLabel.error);
        }
        desired := pidLabel.value;
      }
      var originalLabel := ce.GetLabelForPid(ownPid);
      if originalLabel.Err? {
        return Err(originalLabel.error);
      }
      ce.desiredLabel := desired;
      ce.originalLabel := originalLabel.value;
    }
    return Ok(ce);
  }

  /** `NewContextExecutorFromPid`: take the label from the given process. */
  method NewContextExecutorFromPid(cmd: Command, pid: int, executor: Executor, ownPid: int)
    returns (r: Result<ContextExecutor>)
    modifies executor
    ensures var c := Construction(executor.host, pid, "", ownPid);
      && executor.trace == old(executor.trace) + c.1
      && (r.Err? <==> c.0.Err?)
      && (r.Err? ==> r.error == c.0.error)
      && (r.Ok? ==> r.value.pid == pid && Labels(r.value.desiredLabel, r.value.originalLabel) == c.0.value)
  {
    r := NewContextExecutor(cmd, pid, "", executor, ownPid);
  }

  /** `NewContextExecutorWithLabel`: run under the given label; there is no pid. */
  method NewContextExecutorWithLabel(cmd: Command, execLabel: string, executor: Executor, ownPid: int)
    returns (r: Result<ContextExecutor>)
    modifies executor
    ensures var c := Construction(executor.host, EmptyPid, execLabel, ownPid);
      && executor.trace == old(executor.trace) + c.1
      && (r.Err? <==> c.0.Err?)
      && (r.Err? ==> r.error == c.0.error)
      && (r.Ok? ==> r.value.pid == EmptyPid && Labels(r.value.desiredLabel, r.value.originalLabel) == c.0.value)
  {
    r := NewContextExecutor(cmd, EmptyPid, execLabel, executor, ownPid);
  }

  /** Without a pid, an empty label is refused and any other label is kept as given. */
  lemma WithLabelKeepsLabel(h: Host, execLabel: string, ownPid: int)
    ensures execLabel == "" ==> Construction(h, EmptyPid, execLabel, ownPid).0 == Err(NoPidOrLabel)
    ensures execLabel != "" && SELinuxEnabled(h) && Construction(h, EmptyPid, execLabel, ownPid).0.Ok? ==>
      Construction(h, EmptyPid, execLabel, ownPid).0.value.desired == execLabel
  {
  }
}
