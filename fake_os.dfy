/** A fake host filesystem standing in for the cgroup tree: file contents by
    path, a set of directories, and a log of every write and mkdir attempted,
    in order. The host refuses writes and mkdirs at the paths in `failing`;
    a Stat at a path in `statFails` fails for a reason other than absence. */
module FakeOs {
  import opened Wrappers
  import opened Paths

  datatype FsOp = Write(path: string, data: string) | Mkdir(path: string)

  datatype FsState = FsState(files: map<string, string>, dirs: set<string>, log: seq<FsOp>)

  function OpPath(op: FsOp): string {
    match op
    case Write(p, _) => p
    case Mkdir(p) => p
  }

  /** One attempted operation: it is always logged, and takes effect unless the host refuses it. */
  function Perform(s: FsState, op: FsOp, failing: set<string>): (r: (FsState, bool))
    ensures r.0.log == s.log + [op]
    ensures r.1 <==> OpPath(op) !in failing
    ensures !r.1 ==> r.0.files == s.files && r.0.dirs == s.dirs
  {
    var logged := s.(log := s.log + [op]);
    if OpPath(op) in failing then (logged, false)
    else match op
      case Write(p, data) => (logged.(files := s.files[p := data]), true)
      case Mkdir(p) => (logged.(dirs := s.dirs + {p}), true)
  }

  /** Operations attempted in order, stopping at the first one the host refuses. */
  function PerformAll(s: FsState, ops: seq<FsOp>, failing: set<string>): (FsState, bool)
    decreases |ops|
  {
    if ops == [] then (s, true)
    else
      var (s', ok) := Perform(s, ops[0], failing);
      if !ok then (s', false) else PerformAll(s', ops[1..], failing)
  }

  /** The index of the first operation the host refuses, or |ops| if none. */
  function FirstFailing(ops: seq<FsOp>, failing: set<string>): (k: nat)
    ensures k <= |ops|
    ensures forall j :: 0 <= j < k ==> OpPath(ops[j]) !in failing
    ensures k < |ops| ==> OpPath(ops[k]) in failing
    decreases |ops|
  {
    if ops == [] then 0
    else if OpPath(ops[0]) in failing then 0
    else 1 + FirstFailing(ops[1..], failing)
  }

  /** The log grows by exactly the operations up to and including the first
      refused one; the run succeeds iff none is refused. */
  lemma {:induction false} PerformAllStopsAtFirstFailure(s: FsState, ops: seq<FsOp>, failing: set<string>)
    ensures var k := FirstFailing(ops, failing);
      && PerformAll(s, ops, failing).0.log == s.log + ops[..if k < |ops| then k + 1 else k]
      && (PerformAll(s, ops, failing).1 <==> k == |ops|)
    decreases |ops|
  {
    if ops != [] {
      var (s', ok) := Perform(s, ops[0], failing);
      if ok {
        PerformAllStopsAtFirstFailure(s', ops[1..], failing);
        var k' := FirstFailing(ops[1..], failing);
        assert ops[..if k' + 1 < |ops| then k' + 2 else k' + 1]
            == [ops[0]] + ops[1..][..if k' < |ops| - 1 then k' + 1 else k'];
      }
    }
  }

  /** One step of a run: the run from operation j on is operation j, then the rest unless it was refused. */
  lemma PerformAllStep(s: FsState, ops: seq<FsOp>, j: nat, failing: set<string>)
    requires j < |ops|
    ensures PerformAll(s, ops[j..], failing) ==
      if !Perform(s, ops[j], failing).1 then Perform(s, ops[j], failing)
      else PerformAll(Perform(s, ops[j], failing).0, ops[j + 1..], failing)
  {
    assert ops[j..][0] == ops[j];
    assert ops[j..][1..] == ops[j + 1..];
  }

  class FileSystem {
    var state: FsState
    const failing: set<string>
    const statFails: set<string>

    constructor (files: map<string, string>, dirs: set<string>, failing: set<string>, statFails: set<string>)
      ensures state == FsState(files, dirs, [])
      ensures this.failing == failing && this.statFails == statFails
    {
      state := FsState(files, dirs, []);
      this.failing := failing;
      this.statFails := statFails;
    }

    /** `os.Stat(p)` reports `os.ErrNotExist`. */
    predicate StatNotExist(p: string)
      reads this
    {
      p !in state.files && p !in state.dirs && p !in statFails
    }

    /** `os.ReadFile(p)`. */
    function ReadFile(p: string): (r: Result<string>)
      reads this
      ensures r.Ok? <==> p in state.files
      ensures r.Ok? ==> r.value == state.files[p]
    {
      if p in state.files then Ok(state.files[p]) else Err(NotExist(p))
    }

    /** runc's `cgroups.WriteFile(dir, file, data)`: writes `data` to dir/file. */
    method WriteFile(dir: string, file: string, data: string) returns (err: Option<Error>)
      modifies this
      ensures (state, err.None?) == Perform(old(state), Write(Join(dir, file), data), failing)
      ensures err.Some? ==> err.value == WriteFailed(Join(dir, file))
    {
      var p := Join(dir, file);
      var outcome := Perform(state, Write(p, data), failing);
      state := outcome.0;
      err := if outcome.1 then None else Some(WriteFailed(p));
    }

    /** `util.MkdirAllWithNosec(p)`. */
    method MkdirAll(p: string) returns (err: Option<Error>)
      modifies this
      ensures (state, err.None?) == Perform(old(state), Mkdir(p), failing)
      ensures err.Some? ==> err.value == WriteFailed(p)
    {
      var outcome := Perform(state, Mkdir(p), failing);
      state := outcome.0;
      err := if outcome.1 then None else Some(WriteFailed(p));
    }
  }
}
