/** The VSOCK dialer: `Dial` and `DialContext`. */
module Dialing {
  import opened Os
  import opened Vsock
  import opened Errors
  import opened Fd
  import opened Conns

  /**
    Checks the network name before anything else, then creates a socket that
    connects to `raddr` and wraps it.
  */
  method DialContext(k: Kernel, ctx: Context, network: string, laddr: Option<Addr>, raddr: Option<Addr>, s: SocketScript)
    returns (c: Conn?, err: Option<Error>, ghost created: NetFD?)
    requires network == "vsock" ==> SocketReturns(laddr, raddr, s)
    modifies k
    ensures network != "vsock" ==>
              c == null && created == null && k.calls == old(k.calls) &&
              err == Some(OpError("dial", network, AddrPtr(laddr), AddrPtr(raddr), network))
    ensures network != "vsock" ==> (FormatsNilAddr(err.value) <==> laddr.None? || raddr.None?)
    ensures network == "vsock" ==>
              err == SocketSpec(ctx, laddr, raddr, s) &&
              (c == null <==> err.Some?) &&
              (created == null <==> s.socket.SocketFailed?) &&
              (created != null && err.Some? ==> created.closed) &&
              k.calls == old(k.calls) + SocketCalls(ctx, laddr, raddr, s)
    ensures c != null ==>
              fresh(c) && c.fd == created && fresh(c.fd) && !c.fd.closed &&
              (c.LocalAddr(), c.RemoteAddr()) == SocketAddrs(ctx, laddr, raddr, s)
  {
    if network != "vsock" {
      created := null;
      return null, Some(OpError("dial", network, AddrPtr(laddr), AddrPtr(raddr), network)), null;
    }
    var fd;
    fd, err, created := Socket(k, ctx, laddr, raddr, s);
    if err.Some? {
      return null, err, created;
    }
    c := new Conn(fd);
  }

  /** `DialContext` with `context.Background()`. */
  method Dial(k: Kernel, network: string, laddr: Option<Addr>, raddr: Option<Addr>, s: SocketScript)
    returns (c: Conn?, err: Option<Error>, ghost created: NetFD?)
    requires network == "vsock" ==> SocketReturns(laddr, raddr, s)
    modifies k
    ensures network != "vsock" ==>
              c == null && created == null && k.calls == old(k.calls) &&
              err == Some(OpError("dial", network, AddrPtr(laddr), AddrPtr(raddr), network))
    ensures network != "vsock" ==> (FormatsNilAddr(err.value) <==> laddr.None? || raddr.None?)
    ensures network == "vsock" ==>
              err == SocketSpec(Background, laddr, raddr, s) &&
              (c == null <==> err.Some?) &&
              (created == null <==> s.socket.SocketFailed?) &&
              (created != null && err.Some? ==> created.closed) &&
              k.calls == old(k.calls) + SocketCalls(Background, laddr, raddr, s)
    ensures c != null ==>
              fresh(c) && c.fd == created && fresh(c.fd) && !c.fd.closed &&
              (c.LocalAddr(), c.RemoteAddr()) == SocketAddrs(Background, laddr, raddr, s)
  {
    c, err, created := DialContext(k, Background, network, laddr, raddr, s);
  }
}
