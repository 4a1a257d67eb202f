/** The error values the socket layer hands back to its callers. */
module Errors {
  import opened Os
  import opened Vsock

  datatype Error =
      /** `os.NewSyscallError(syscall, errno)`: an OS error tagged with the failing call. */
    | SyscallError(syscall: string, errno: Errno)
      /** An OS error number returned as it came. */
    | RawErrno(errno: Errno)
      /** `ctx.Err()` of a context that is done. */
    | ContextError(reason: CtxError)
      /** `&net.OpError{Op, Net, Source, Addr, Err: net.UnknownNetworkError(unknownNetwork)}`. */
    | OpError(op: string, net: string, source: NetAddr, addr: NetAddr, unknownNetwork: string)
      /** `os.ErrClosed`: the file was already closed. */
    | FileClosed
      /** `&os.PathError{Op, Path, Err}`: a failed operation on the named file. */
    | PathError(op: string, path: string, err: Error)

  /**
    Whether formatting the error (`Error()`) calls `String` on a nil `*Addr`:
    `net.OpError` formats every non-nil address field, and a typed nil
    pointer is a non-nil interface.
  */
  predicate FormatsNilAddr(e: Error) {
    e.OpError? && (e.source == AddrPtr(None) || e.addr == AddrPtr(None))
  }
}
