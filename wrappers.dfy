/** Option, Result and the error values of the cgroup layer, plus a model of a
    Go slice, whose nil value is distinguishable from an empty slice. */
module Wrappers {

  datatype Option<+T> = None | Some(value: T)

  /** The errors returned by the modelled code. Go wraps causes into message
      text; here each error names its origin and the data it carries. */
  datatype Error =
    | NilNewRules                       // util.go: "new rules cannot be nil"
    | HelperFailed(output: string)      // the privileged helper exited non-zero
    | InvalidCpuWeight(weight: int)     // weight <= 0
    | CpuWeightFormat(content: string)  // cpu.weight holds no integer
    | CpuWeightWriteFailed(weight: int) // writing cpu.weight failed
    | NotExist(path: string)            // a file that could not be read
    | WriteFailed(path: string)         // a write or mkdir the host refused
    | NotAnInteger(line: string)        // strconv.Atoi rejected a line
    | ManagerInitFailed(cause: Error)   // the cgroup file of a pid did not parse
    | QemuNotFound                      // no qemu-kvm thread in the compute cgroup
    | NotCpuDedicated                   // the VMI does not ask for dedicated CPUs
    | NoPidOrLabel                      // neither pid nor label given
    | LabelUnavailable(pid: int)        // /proc/<pid>/attr/current unreadable
    | SwitchContextFailed(desired: string)
    | ExecuteFailed(pid: int)
    | External(what: string)            // an error raised by code outside this model

  datatype Result<+T> = Ok(value: T) | Err(error: Error)

  /** A Go slice: `Nil` is the nil slice, `Items(s)` a non-nil slice with
      elements `s` (possibly none). */
  datatype Slice<+T> = Nil | Items(items: seq<T>) {
    function Elems(): seq<T> {
      if Nil? then [] else items
    }
  }

  /** Go's `append(s, xs...)`: appending nothing to nil stays nil. */
  function Append<T>(s: Slice<T>, xs: seq<T>): (r: Slice<T>)
    ensures r.Elems() == s.Elems() + xs
    ensures r.Nil? <==> s.Nil? && xs == []
  {
    if s.Nil? && xs == [] then Nil else Items(s.Elems() + xs)
  }
}
