/** The VSOCK listener: `Listen`, and `Accept`, `Close` and `Addr` on the result. */
module Listening {
  import opened Os
  import opened Vsock
  import opened Errors
  import opened Fd
  import opened Conns

  class Listener {
    const fd: NetFD
    const laddr: Option<Addr>

    constructor (fd: NetFD, laddr: Option<Addr>)
      ensures this.fd == fd && this.laddr == laddr
    {
      this.fd := fd;
      this.laddr := laddr;
    }

    /**
      Accepts one connection and wraps the new descriptor; the listening
      descriptor is never handed out, but its address fields are the ones
      `accept` overwrites.
    */
    method Accept(k: Kernel, answer: SysResult<Accepted>, sockname: Option<Sockaddr>)
      returns (c: Conn?, err: Option<Error>)
      modifies fd`laddr, fd`raddr, k
      ensures answer.Fail? ==>
                c == null && err == Some(RawErrno(answer.errno)) &&
                fd.laddr == old(fd.laddr) && fd.raddr == old(fd.raddr)
      ensures answer.Ok? ==>
                c != null && err.None? && fresh(c) && fresh(c.fd) && c.fd != fd &&
                c.fd.sysfd == answer.value.fd && !c.fd.closed &&
                c.LocalAddr() == NilInterface && c.RemoteAddr() == NilInterface &&
                fd.laddr == SockaddrToVSock(sockname) && fd.raddr == SockaddrToVSock(Some(answer.value.peer))
      ensures k.calls == old(k.calls) + [Call.Accept(fd.sysfd)] +
                         (if answer.Ok? then [Getsockname(answer.value.fd)] else [])
    {
      var nfd;
      nfd, err := fd.Accept(k, answer, sockname);
      if err.Some? {
        return null, err;
      }
      c := new Conn(nfd);
    }

    /** Closes the listening descriptor, and only it, returning what that close reports. */
    method Close(k: Kernel, answer: Status) returns (err: Option<Error>)
      modifies fd`closed, k
      ensures fd.closed
      ensures err == CloseError(fd.name, old(fd.closed), answer)
      ensures k.calls == old(k.calls) + CloseCalls(fd.sysfd, old(fd.closed), true)
    {
      err := fd.Close(k, answer);
    }

    /** The address given to `Listen`, never re-read from the OS. */
    function Addr(): (a: NetAddr)
      ensures a == AddrPtr(laddr)
    {
      AddrPtr(laddr)
    }
  }

  /**
    Checks the network name before anything else, then creates a socket with
    the background context and no remote address, and wraps it.
  */
  method Listen(k: Kernel, network: string, laddr: Option<Addr>, s: SocketScript)
    returns (l: Listener?, err: Option<Error>, ghost created: NetFD?)
    modifies k
    ensures network != "vsock" ==>
              l == null && created == null && k.calls == old(k.calls) &&
              err == Some(OpError("listen", network, NilInterface, AddrPtr(laddr), network))
    ensures network != "vsock" ==> (FormatsNilAddr(err.value) <==> laddr.None?)
    ensures network == "vsock" ==>
              err == SocketSpec(Background, laddr, None, s) &&
              (l == null <==> err.Some?) &&
              (created == null <==> s.socket.SocketFailed?) &&
              (created != null && err.Some? ==> created.closed) &&
              k.calls == old(k.calls) + SocketCalls(Background, laddr, None, s)
    ensures l != null ==>
              fresh(l) && l.fd == created && fresh(l.fd) && !l.fd.closed &&
              l.laddr == laddr && l.Addr() == AddrPtr(laddr) &&
              (l.fd.laddr, l.fd.raddr) == SocketAddrs(Background, laddr, None, s)
  {
    if network != "vsock" {
      created := null;
      return null, Some(OpError("listen", network, NilInterface, AddrPtr(laddr), network)), null;
    }
    var fd;
    fd, err, created := Socket(k, Background, laddr, None, s);
    if err.Some? {
      return null, err, created;
    }
    l := new Listener(fd, laddr);
  }

  /**
    With a local address, `Listen` binds and listens (in that order) before
    it returns a listener.
  */
  lemma ListenBindsThenListens(laddr: Addr, s: SocketScript)
    requires s.socket.Created? && SocketSpec(Background, Some(laddr), None, s).None?
    ensures SocketCalls(Background, Some(laddr), None, s) ==
              [SysSocket(AF_VSOCK, SOCK_STREAM, 0), SetDefaultListenerSockopts(s.socket.fd),
               Bind(s.socket.fd, SockaddrVM(laddr.cid, laddr.port)), Call.Listen(s.socket.fd, s.backlog)]
  {
  }

  /**
    Without a local address, `Listen` takes the dial branch with no remote
    address: it cannot fail after the socket exists, and it never binds,
    listens or connects.
  */
  lemma ListenWithoutAddressNeverListens(s: SocketScript)
    ensures SocketSpec(Background, None, None, s) == if s.socket.SocketFailed? then Some(s.socket.err) else None
    ensures forall c :: c in SocketCalls(Background, None, None, s) ==> !c.Bind? && !c.Listen? && !c.Connect?
  {
    if s.socket.Created? {
      var fd := s.socket.fd;
      assert SocketCalls(Background, None, None, s) ==
               [SysSocket(AF_VSOCK, SOCK_STREAM, 0), Getsockname(fd), Getpeername(fd)];
    }
  }
}
