/** The vocabulary a guest and the runtime share: what a syscall asks and what a
    result answers. Payloads are opaque text, compared by equality. */
module Sys {
  datatype Option<+T> = None | Some(value: T)

  /** A syscall's name: the runtime's own protocol, or a granted capability. */
  datatype Name =
    | SysBegin | SysCommit | SysInput | SysOutput | SysAbort
    | SysTimer | SysLog | SysNow | SysRandom
    | Granted(text: string)

  /** One property of an argument object. */
  datatype Property = Text(text: string) | Number(number: int) | Nested

  /** Argument bytes together with what they decode to. */
  datatype Args =
    | Undecodable(raw: string)
    | Object(raw: string, properties: map<string, Property>)

  datatype Syscall = Syscall(name: Name, args: Args)

  /** Where data came from: the syscall that produced it, or a class its
      operation declares. */
  datatype Label = FromSyscall(name: Name) | Declared(text: string)

  datatype Status = Value | Yielded | Failed

  datatype Errno = NoErrno | Denied | InvalidArgs | ExpiredErrno | Internal

  datatype SyscallResult = SyscallResult(
    status: Status, errno: Errno, data: string, message: string, labels: set<Label>)
  {
    /** Labels only accumulate on a result. */
    function WithLabels(more: set<Label>): SyscallResult {
      this.(labels := labels + more)
    }
  }

  function Result(data: string): SyscallResult {
    SyscallResult(Value, NoErrno, data, "", {})
  }

  function Yield(message: string): SyscallResult {
    SyscallResult(Yielded, NoErrno, "", message, {})
  }

  function FailCode(errno: Errno, message: string): SyscallResult {
    SyscallResult(Failed, errno, "", message, {})
  }

  /** The section markers. They carry no data, so no provenance either. */
  predicate IsMarker(name: Name) {
    name.SysBegin? || name.SysCommit?
  }
}
