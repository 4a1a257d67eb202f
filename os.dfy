/**
  The operating system as the socket layer sees it. Nothing here performs a
  system call: each call's answer is handed to the model as a value (an errno,
  a socket address, ...), and the `Kernel` object only records, as ghost state,
  which calls were issued and in which order.

  Numeric constants are those of golang.org/x/sys/unix on Darwin, the platform
  the library targets.
*/
module Os {

  datatype Option<+T> = None | Some(value: T)

  /** An unsigned 32-bit integer, as Go's `uint32`. */
  newtype uint32 = x: int | 0 <= x < 0x1_0000_0000

  /** A non-zero error number; `0` means "no error" and is never an `Errno`. */
  type Errno = e: nat | e != 0 witness 4

  const EINTR: Errno := 4
  const EINPROGRESS: Errno := 36
  const EALREADY: Errno := 37
  const EISCONN: Errno := 56
  const ECONNREFUSED: Errno := 61

  const AF_UNIX: int := 1
  const AF_VSOCK: int := 40
  const SOCK_STREAM: int := 1
  const VMADDR_CID_ANY: uint32 := 0xFFFF_FFFF

  /** A native socket address: the VSOCK one, or one of any other family. */
  datatype Sockaddr = SockaddrVM(cid: uint32, port: uint32) | SockaddrOther(family: nat)

  /** The answer of a system call that returns only an error. */
  datatype Status = Success | Failure(errno: Errno)

  /** The answer of a system call that returns a value or an error. */
  datatype SysResult<+T> = Ok(value: T) | Fail(errno: Errno)

  /** What `ctx.Err()` reports once a context is done. */
  datatype CtxError = Canceled | DeadlineExceeded

  /**
    A caller's context. `Background` is `context.Background()`, which is never
    done. `Cancelable(fired)` is any other context; `fired` says whether it is
    done, and with which error, at the moment the connector looks at it.
  */
  datatype Context = Background | Cancelable(fired: Option<CtxError>) {
    predicate Done() {
      Cancelable? && fired.Some?
    }
  }

  /** One system call issued by the socket layer. */
  datatype Call =
    | SysSocket(family: int, sotype: int, proto: int)
    | SetDefaultListenerSockopts(fd: int)
    | Bind(fd: int, sa: Sockaddr)
    | Listen(fd: int, backlog: int)
    | Connect(fd: int, sa: Sockaddr)
    | GetsockoptSoError(fd: int)
    | Getpeername(fd: int)
    | Getsockname(fd: int)
    | Accept(fd: int)
    | Close(fd: int)

  /** The kernel, reduced to the ghost log of the calls made into it. */
  class Kernel {
    ghost var calls: seq<Call>

    constructor ()
      ensures calls == []
    {
      calls := [];
    }
  }
}
