/**
  The network file descriptor (`netFD`) of the VSOCK transport: socket
  creation, the listen sequence (default options, bind, listen), accept, and
  the dial sequence with its non-blocking connect state machine.

  Every system call's answer is a parameter; the `Kernel` log records which
  calls the code issues. The goroutine that watches the caller's context is
  reduced to its observable result: whether the context was done, and with
  which error, by the time the connect loop returned.
*/
module Fd {
  import opened Os
  import opened Vsock
  import opened Errors

  // ---------------------------------------------------------------------
  // sockaddrToVSock

  /** A native socket address as a `net.Addr`: nil unless it is a VSOCK one. */
  function SockaddrToVSock(sa: Option<Sockaddr>): (r: NetAddr)
    ensures r != NilInterface <==> sa.Some? && sa.value.SockaddrVM?
    ensures r != NilInterface ==> r == AddrPtr(Some(Addr(sa.value.cid, sa.value.port)))
  {
    match sa
    case Some(SockaddrVM(cid, port)) => AddrPtr(Some(Addr(cid, port)))
    case _ => NilInterface
  }

  /** An address survives the trip to the native form and back. */
  lemma SockaddrRoundTrip(a: Addr, family: int)
    ensures SockaddrToVSock(SockaddrOf(Some(a), family)) == AddrPtr(Some(a))
  {
  }

  /** A native address that converts to `a` is the one `a` converts to. */
  lemma SockaddrRoundTripBack(sa: Sockaddr, a: Addr)
    requires SockaddrToVSock(Some(sa)) == AddrPtr(Some(a))
    ensures SockaddrOf(Some(a), AF_VSOCK) == Some(sa)
  {
  }

  // ---------------------------------------------------------------------
  // The connect state machine, as functions of the OS answers

  /** The errnos that mean "the connection attempt is still under way". */
  predicate IsPending(e: nat) {
    e == EINPROGRESS || e == EALREADY || e == EINTR
  }

  /**
    The OS answers for one turn of the polling loop: the result of
    `getsockopt(SO_ERROR)` and, consulted only when that is 0, the result of
    `getpeername`.
  */
  datatype Poll = Poll(soError: SysResult<nat>, peer: SysResult<Sockaddr>)

  /** What `connect` returns: the confirmed peer (`retrsa`) and `retErr`. */
  datatype Connected = Connected(peer: Option<Sockaddr>, err: Option<Error>)

  /** One turn of the loop: `Some` outcome when it returns, `None` when it polls again. */
  function PollStep(p: Poll): Option<Connected>
  {
    match p.soError
    case Fail(e) => Some(Connected(None, Some(SyscallError("getsockopt", e))))
    case Ok(nerr) =>
      if IsPending(nerr) then None
      else if nerr == EISCONN then Some(Connected(None, None))
      else if nerr == 0 then
        match p.peer
        case Ok(sa) => Some(Connected(Some(sa), None))
        case Fail(_) => None
      else Some(Connected(None, Some(SyscallError("connect", nerr))))
  }

  /** The loop over a finite script of answers; `None` if it is still polling at the end. */
  function PollLoop(polls: seq<Poll>): Option<Connected>
    decreases |polls|
  {
    if polls == [] then None
    else if PollStep(polls[0]).Some? then PollStep(polls[0])
    else PollLoop(polls[1..])
  }

  /** The system calls one turn of the loop issues. */
  function StepCalls(fd: int, p: Poll): seq<Call> {
    [GetsockoptSoError(fd)] + (if p.soError == Ok(0) then [Getpeername(fd)] else [])
  }

  /** The system calls the loop issues until it returns. */
  function PollCalls(fd: int, polls: seq<Poll>): seq<Call>
    decreases |polls|
  {
    if polls == [] then []
    else StepCalls(fd, polls[0]) + (if PollStep(polls[0]).Some? then [] else PollCalls(fd, polls[1..]))
  }

  /**
    The Go loop returns only once the OS reports an outcome, so a connect
    that enters it is modelled only for answer scripts that contain one.
  */
  predicate ConnectReturns(status: Status, polls: seq<Poll>) {
    status.Failure? && IsPending(status.errno) ==> PollLoop(polls).Some?
  }

  datatype ConnectOutcome = ConnectOutcome(result: Connected, closesFile: bool)

  /**
    The deferred merge: a context that was done before the loop returned
    replaces a nil loop error with its own error and closes the file; an
    error the loop returned is kept. `Background` is never done, and no
    interrupter is set up for it.
  */
  function Merge(ctx: Context, r: Connected): ConnectOutcome {
    if ctx.Done() && r.err.None? then
      ConnectOutcome(Connected(r.peer, Some(ContextError(ctx.fired.value))), true)
    else ConnectOutcome(r, false)
  }

  /** The outcome of `connect` for the immediate answer `status` and the loop answers `polls`. */
  function ConnectSpec(ctx: Context, status: Status, polls: seq<Poll>): ConnectOutcome
    requires ConnectReturns(status, polls)
  {
    match status
    case Success => ConnectOutcome(Connected(None, if ctx.Done() then Some(ContextError(ctx.fired.value)) else None), false)
    case Failure(e) =>
      if e == EISCONN then
        ConnectOutcome(Connected(None, if ctx.Done() then Some(ContextError(ctx.fired.value)) else None), false)
      else if IsPending(e) then Merge(ctx, PollLoop(polls).value)
      else ConnectOutcome(Connected(None, Some(SyscallError("connect", e))), false)
  }

  /** The system calls `connect` issues before its deferred close. */
  function ConnectCalls(fd: int, rsa: Sockaddr, status: Status, polls: seq<Poll>): seq<Call> {
    [Call.Connect(fd, rsa)] + (if status.Failure? && IsPending(status.errno) then PollCalls(fd, polls) else [])
  }

  /** What closing the file named `name` reports: nothing, its `close` errno, or that it was closed already. */
  function CloseError(name: string, wasClosed: bool, answer: Status): (err: Option<Error>)
    ensures err.None? <==> !wasClosed && answer.Success?
    ensures err.Some? ==> err.value.PathError? && err.value.op == "close" && err.value.path == name
    ensures wasClosed ==> err.value.err == FileClosed
    ensures !wasClosed && answer.Failure? ==> err.value.err == RawErrno(answer.errno)
  {
    if wasClosed then Some(PathError("close", name, FileClosed))
    else if answer.Failure? then Some(PathError("close", name, RawErrno(answer.errno)))
    else None
  }

  /** Closing the file issues `close` only the first time. */
  function CloseCalls(fd: int, wasClosed: bool, closes: bool): seq<Call> {
    if closes && !wasClosed then [Call.Close(fd)] else []
  }

  lemma AppendAssoc<T>(a: seq<T>, b: seq<T>, c: seq<T>)
    ensures a + (b + c) == (a + b) + c
  {
  }

  // ---------------------------------------------------------------------
  // Properties of the connect state machine

  /** Each possible answer of one loop turn, stated as what the loop then does. */
  lemma PollAnswerOutcome(p: Poll, rest: seq<Poll>)
    ensures p.soError.Fail? ==> PollLoop([p] + rest) == Some(Connected(None, Some(SyscallError("getsockopt", p.soError.errno))))
    ensures p.soError.Ok? && IsPending(p.soError.value) ==> PollLoop([p] + rest) == PollLoop(rest)
    ensures p.soError == Ok(EISCONN as nat) ==> PollLoop([p] + rest) == Some(Connected(None, None))
    ensures p.soError == Ok(0) && p.peer.Ok? ==> PollLoop([p] + rest) == Some(Connected(Some(p.peer.value), None))
    ensures p.soError == Ok(0) && p.peer.Fail? ==> PollLoop([p] + rest) == PollLoop(rest)
    ensures p.soError.Ok? && p.soError.value != 0 && p.soError.value != EISCONN && !IsPending(p.soError.value) ==>
              PollLoop([p] + rest) == Some(Connected(None, Some(SyscallError("connect", p.soError.value))))
  {
    assert ([p] + rest)[0] == p;
    assert ([p] + rest)[1..] == rest;
  }

  /** The loop returns exactly what the first answer that ends it says. */
  lemma {:induction false} PollLoopFirstFinal(polls: seq<Poll>, k: nat)
    requires k < |polls| && PollStep(polls[k]).Some?
    requires forall j :: 0 <= j < k ==> PollStep(polls[j]).None?
    ensures PollLoop(polls) == PollStep(polls[k])
    decreases k
  {
    if k > 0 {
      assert PollStep(polls[0]).None?;
      var rest := polls[1..];
      assert forall j :: 0 <= j < k - 1 ==> rest[j] == polls[j + 1];
      PollLoopFirstFinal(rest, k - 1);
    }
  }

  /** The loop keeps polling through the whole script exactly when no answer ends it. */
  lemma {:induction false} PollLoopKeepsPolling(polls: seq<Poll>)
    ensures PollLoop(polls).None? <==> forall j :: 0 <= j < |polls| ==> PollStep(polls[j]).None?
    decreases |polls|
  {
    if polls != [] {
      var rest := polls[1..];
      PollLoopKeepsPolling(rest);
      assert forall j :: 1 <= j < |polls| ==> polls[j] == rest[j - 1];
    }
  }

  /** "Still in progress" is retried and never surfaces as the loop's error. */
  predicate SurfacesPending(r: Connected) {
    r.err.Some? && r.err.value.SyscallError? && r.err.value.syscall == "connect" && IsPending(r.err.value.errno)
  }

  lemma {:induction false} PollLoopNeverSurfacesPending(polls: seq<Poll>)
    ensures PollLoop(polls).Some? ==> !SurfacesPending(PollLoop(polls).value)
    decreases |polls|
  {
    if polls != [] && PollStep(polls[0]).None? {
      PollLoopNeverSurfacesPending(polls[1..]);
    }
  }

  /**
    A peer is returned only after an SO_ERROR of 0 that `getpeername`
    confirmed, and it is that `getpeername` answer.
  */
  lemma {:induction false} PollLoopPeerConfirmed(polls: seq<Poll>)
    ensures PollLoop(polls).Some? && PollLoop(polls).value.peer.Some? ==>
              PollLoop(polls).value.err.None? &&
              exists j :: 0 <= j < |polls| && polls[j].soError == Ok(0) && polls[j].peer == Ok(PollLoop(polls).value.peer.value)
    decreases |polls|
  {
    if polls != [] && PollStep(polls[0]).None? {
      var rest := polls[1..];
      PollLoopPeerConfirmed(rest);
      if PollLoop(rest).Some? && PollLoop(rest).value.peer.Some? {
        var j :| 0 <= j < |rest| && rest[j].soError == Ok(0) && rest[j].peer == Ok(PollLoop(rest).value.peer.value);
        assert polls[j + 1] == rest[j];
      }
    }
  }

  /** Immediate success or EISCONN: no peer, no polling, and the error is the context's if it is done. */
  lemma ConnectImmediateSuccess(ctx: Context, status: Status, polls: seq<Poll>, fd: int, rsa: Sockaddr)
    requires status.Success? || status.errno == EISCONN
    ensures ConnectSpec(ctx, status, polls).result.peer.None?
    ensures ConnectSpec(ctx, status, polls).result.err.None? <==> !ctx.Done()
    ensures ctx.Done() ==> ConnectSpec(ctx, status, polls).result.err == Some(ContextError(ctx.fired.value))
    ensures !ConnectSpec(ctx, status, polls).closesFile
    ensures ConnectCalls(fd, rsa, status, polls) == [Call.Connect(fd, rsa)]
  {
  }

  /** Any other immediate errno fails the connect, tagged "connect", without polling. */
  lemma ConnectHardFailure(ctx: Context, status: Status, polls: seq<Poll>, fd: int, rsa: Sockaddr)
    requires status.Failure? && status.errno != EISCONN && !IsPending(status.errno)
    ensures ConnectSpec(ctx, status, polls) == ConnectOutcome(Connected(None, Some(SyscallError("connect", status.errno))), false)
    ensures ConnectCalls(fd, rsa, status, polls) == [Call.Connect(fd, rsa)]
  {
  }

  /**
    After polling, a context error replaces the loop's result only when the
    loop returned no error, and exactly then is the file closed; an error the
    loop returned is never overwritten.
  */
  lemma ConnectCancellation(ctx: Context, status: Status, polls: seq<Poll>)
    requires status.Failure? && IsPending(status.errno) && ConnectReturns(status, polls)
    ensures ConnectSpec(ctx, status, polls).closesFile <==> ctx.Done() && PollLoop(polls).value.err.None?
    ensures ConnectSpec(ctx, status, polls).result.peer == PollLoop(polls).value.peer
    ensures PollLoop(polls).value.err.Some? ==> ConnectSpec(ctx, status, polls).result.err == PollLoop(polls).value.err
    ensures ctx.Done() ==> ConnectSpec(ctx, status, polls).result.err.Some?
    ensures !ctx.Done() ==> ConnectSpec(ctx, status, polls).result == PollLoop(polls).value
  {
  }

  /** A connect still in progress at the first poll and refused at the second fails with the refusal. */
  lemma ConnectInProgressThenRefused(ctx: Context, peer: SysResult<Sockaddr>)
    ensures ConnectSpec(ctx, Failure(EINPROGRESS), [Poll(Ok(EINPROGRESS as nat), peer), Poll(Ok(ECONNREFUSED as nat), peer)])
              == ConnectOutcome(Connected(None, Some(SyscallError("connect", ECONNREFUSED))), false)
  {
    var refused := Poll(Ok(ECONNREFUSED as nat), peer);
    var polls := [Poll(Ok(EINPROGRESS as nat), peer), refused];
    assert polls[1..] == [refused];
    assert PollLoop([refused]) == Some(Connected(None, Some(SyscallError("connect", ECONNREFUSED))));
  }

  /** With `context.Background()` the result is never a context error and the file is never closed. */
  lemma BackgroundNeverCancels(status: Status, polls: seq<Poll>)
    requires ConnectReturns(status, polls)
    ensures !ConnectSpec(Background, status, polls).closesFile
    ensures ConnectSpec(Background, status, polls).result.err.Some? ==> !ConnectSpec(Background, status, polls).result.err.value.ContextError?
  {
    if status.Failure? && IsPending(status.errno) {
      PollLoopFirstFinalExists(polls);
    }
  }

  /** A loop that returns returns an answer's own outcome. */
  lemma {:induction false} PollLoopFirstFinalExists(polls: seq<Poll>)
    ensures PollLoop(polls).Some? ==> exists j :: 0 <= j < |polls| && PollLoop(polls) == PollStep(polls[j])
    decreases |polls|
  {
    if polls != [] && PollStep(polls[0]).None? {
      var rest := polls[1..];
      PollLoopFirstFinalExists(rest);
      if PollLoop(rest).Some? {
        var j :| 0 <= j < |rest| && PollLoop(rest) == PollStep(rest[j]);
        assert polls[j + 1] == rest[j];
      }
    }
  }

  /** The connect never reports an in-progress errno as its error. */
  lemma ConnectNeverSurfacesPending(ctx: Context, status: Status, polls: seq<Poll>)
    requires ConnectReturns(status, polls)
    ensures !SurfacesPending(ConnectSpec(ctx, status, polls).result)
  {
    if status.Failure? && IsPending(status.errno) {
      PollLoopNeverSurfacesPending(polls);
    }
  }

  /** A connect that returns a peer got it from a confirmed zero SO_ERROR. */
  lemma ConnectPeerConfirmed(ctx: Context, status: Status, polls: seq<Poll>)
    requires ConnectReturns(status, polls)
    ensures ConnectSpec(ctx, status, polls).result.peer.Some? ==>
              status.Failure? && IsPending(status.errno) &&
              exists j :: 0 <= j < |polls| && polls[j].soError == Ok(0) && polls[j].peer == Ok(ConnectSpec(ctx, status, polls).result.peer.value)
  {
    if status.Failure? && IsPending(status.errno) {
      PollLoopPeerConfirmed(polls);
    }
  }

  // ---------------------------------------------------------------------
  // The listen and dial sequences, as functions of the OS answers

  /** Answers for `listenStream`: the runtime's default-options helper, `bind`, `listen`. */
  datatype ListenScript = ListenScript(sockopts: Option<Error>, bind: Status, listen: Status)

  /** `listenStream`'s error: the first failing step's, bind and listen errors tagged. */
  function ListenStreamSpec(s: ListenScript): Option<Error> {
    if s.sockopts.Some? then s.sockopts
    else if s.bind.Failure? then Some(SyscallError("bind", s.bind.errno))
    else if s.listen.Failure? then Some(SyscallError("listen", s.listen.errno))
    else None
  }

  function ListenStreamCalls(fd: int, laddr: Addr, backlog: int, s: ListenScript): seq<Call> {
    [SetDefaultListenerSockopts(fd)] +
    if s.sockopts.Some? then []
    else [Bind(fd, SockaddrOf(Some(laddr), AF_VSOCK).value)] +
         if s.bind.Failure? then [] else [Listen(fd, backlog)]
  }

  /** Default options, bind, listen, in that order; each step only after the previous succeeded. */
  lemma ListenStreamOrder(fd: int, laddr: Addr, backlog: int, s: ListenScript)
    ensures ListenStreamSpec(s).None? <==> s.sockopts.None? && s.bind.Success? && s.listen.Success?
    ensures ListenStreamCalls(fd, laddr, backlog, s) <=
              [SetDefaultListenerSockopts(fd), Bind(fd, SockaddrVM(laddr.cid, laddr.port)), Listen(fd, backlog)]
    ensures Bind(fd, SockaddrVM(laddr.cid, laddr.port)) in ListenStreamCalls(fd, laddr, backlog, s) <==> s.sockopts.None?
    ensures Listen(fd, backlog) in ListenStreamCalls(fd, laddr, backlog, s) <==> s.sockopts.None? && s.bind.Success?
    ensures s.sockopts.Some? ==> ListenStreamSpec(s) == s.sockopts
    ensures s.sockopts.None? && s.bind.Failure? ==> ListenStreamSpec(s) == Some(SyscallError("bind", s.bind.errno))
    ensures s.sockopts.None? && s.bind.Success? && s.listen.Failure? ==> ListenStreamSpec(s) == Some(SyscallError("listen", s.listen.errno))
  {
    var calls := ListenStreamCalls(fd, laddr, backlog, s);
    if s.sockopts.Some? {
      assert calls == [SetDefaultListenerSockopts(fd)];
    } else if s.bind.Failure? {
      assert calls == [SetDefaultListenerSockopts(fd), Bind(fd, SockaddrVM(laddr.cid, laddr.port))];
    } else {
      assert calls == [SetDefaultListenerSockopts(fd), Bind(fd, SockaddrVM(laddr.cid, laddr.port)), Listen(fd, backlog)];
    }
  }

  /**
    Answers for `dial`: `bind` (when a local address is given), the immediate
    `connect` answer and the loop answers (when a remote one is), and the
    `getsockname` and `getpeername` results read afterwards (nil on error).
  */
  datatype DialScript = DialScript(bind: Status, connect: Status, polls: seq<Poll>,
                                   sockname: Option<Sockaddr>, peername: Option<Sockaddr>)

  predicate DialReturns(raddr: Option<Addr>, s: DialScript) {
    raddr.Some? ==> ConnectReturns(s.connect, s.polls)
  }

  datatype DialOutcome = DialOutcome(err: Option<Error>, confirmed: Option<Sockaddr>, closesFile: bool)

  /** `dial`'s error, the peer `connect` confirmed, and whether `connect` closed the file. */
  function DialSpec(ctx: Context, laddr: Option<Addr>, raddr: Option<Addr>, s: DialScript): DialOutcome
    requires DialReturns(raddr, s)
  {
    if laddr.Some? && s.bind.Failure? then DialOutcome(Some(SyscallError("bind", s.bind.errno)), None, false)
    else if raddr.Some? then
      var c := ConnectSpec(ctx, s.connect, s.polls);
      if c.result.err.Some? then DialOutcome(c.result.err, None, c.closesFile)
      else DialOutcome(None, c.result.peer, c.closesFile)
    else DialOutcome(None, None, false)
  }

  /** The remote address a successful dial records. */
  function ResolveRemote(confirmed: Option<Sockaddr>, peername: Option<Sockaddr>, raddr: Option<Addr>): NetAddr {
    if confirmed.Some? then SockaddrToVSock(confirmed)
    else if peername.Some? then SockaddrToVSock(peername)
    else AddrPtr(raddr)
  }

  function DialBindCalls(fd: int, laddr: Option<Addr>): seq<Call> {
    if laddr.Some? then [Bind(fd, SockaddrOf(laddr, AF_VSOCK).value)] else []
  }

  function DialConnectCalls(fd: int, wasClosed: bool, ctx: Context, raddr: Option<Addr>, s: DialScript): seq<Call>
    requires DialReturns(raddr, s)
  {
    if raddr.Some? then
      ConnectCalls(fd, SockaddrOf(raddr, AF_VSOCK).value, s.connect, s.polls)
      + CloseCalls(fd, wasClosed, ConnectSpec(ctx, s.connect, s.polls).closesFile)
    else []
  }

  /** `getsockname`, then `getpeername` only when `connect` confirmed no peer. */
  function DialAddrCalls(fd: int, confirmed: Option<Sockaddr>): seq<Call> {
    [Getsockname(fd)] + (if confirmed.None? then [Getpeername(fd)] else [])
  }

  function DialCalls(fd: int, wasClosed: bool, ctx: Context, laddr: Option<Addr>, raddr: Option<Addr>, s: DialScript): seq<Call>
    requires DialReturns(raddr, s)
  {
    DialBindCalls(fd, laddr) +
    if laddr.Some? && s.bind.Failure? then []
    else
      DialConnectCalls(fd, wasClosed, ctx, raddr, s) +
      if DialSpec(ctx, laddr, raddr, s).err.Some? then []
      else DialAddrCalls(fd, DialSpec(ctx, laddr, raddr, s).confirmed)
  }

  /** A dial closes the file only when it fails, and only by a cancelled connect. */
  lemma DialClosesOnlyOnCancel(ctx: Context, laddr: Option<Addr>, raddr: Option<Addr>, s: DialScript)
    requires DialReturns(raddr, s)
    ensures DialSpec(ctx, laddr, raddr, s).closesFile ==>
              DialSpec(ctx, laddr, raddr, s).err.Some? && ctx.Done() &&
              DialSpec(ctx, laddr, raddr, s).err == Some(ContextError(ctx.fired.value))
  {
  }

  /** A confirmed peer wins over `getpeername` and over the caller's address. */
  lemma DialRecordsConfirmedPeer(ctx: Context, laddr: Option<Addr>, raddr: Option<Addr>, s: DialScript)
    requires DialReturns(raddr, s)
    requires DialSpec(ctx, laddr, raddr, s).err.None?
    ensures DialSpec(ctx, laddr, raddr, s).confirmed.Some? ==>
              raddr.Some? && ResolveRemote(DialSpec(ctx, laddr, raddr, s).confirmed, s.peername, raddr) ==
              SockaddrToVSock(Some(ConnectSpec(ctx, s.connect, s.polls).result.peer.value))
    ensures DialSpec(ctx, laddr, raddr, s).confirmed.None? && s.peername.Some? ==>
              ResolveRemote(DialSpec(ctx, laddr, raddr, s).confirmed, s.peername, raddr) == SockaddrToVSock(s.peername)
    ensures DialSpec(ctx, laddr, raddr, s).confirmed.None? && s.peername.None? ==>
              ResolveRemote(DialSpec(ctx, laddr, raddr, s).confirmed, s.peername, raddr) == AddrPtr(raddr)
  {
  }

  // ---------------------------------------------------------------------
  // socket

  /** What the runtime's `sysSocket` helper returns. */
  datatype SocketAnswer = Created(fd: int) | SocketFailed(err: Error)

  /** All answers one `socket` call may need; `backlog` is the runtime's `listenerBacklog()`. */
  datatype SocketScript = SocketScript(socket: SocketAnswer, backlog: int, listen: ListenScript, dial: DialScript)

  /** `socket` listens exactly when it has a local and no remote address. */
  predicate IsListenBranch(laddr: Option<Addr>, raddr: Option<Addr>) {
    laddr.Some? && raddr.None?
  }

  predicate SocketReturns(laddr: Option<Addr>, raddr: Option<Addr>, s: SocketScript) {
    !IsListenBranch(laddr, raddr) ==> DialReturns(raddr, s.dial)
  }

  /** `socket`'s error: the allocation's, else the listen or dial branch's, unchanged. */
  function SocketSpec(ctx: Context, laddr: Option<Addr>, raddr: Option<Addr>, s: SocketScript): Option<Error>
    requires SocketReturns(laddr, raddr, s)
  {
    match s.socket
    case SocketFailed(e) => Some(e)
    case Created(_) =>
      if IsListenBranch(laddr, raddr) then ListenStreamSpec(s.listen)
      else DialSpec(ctx, laddr, raddr, s.dial).err
  }

  /** The local and remote addresses a successful `socket` leaves on the descriptor. */
  function SocketAddrs(ctx: Context, laddr: Option<Addr>, raddr: Option<Addr>, s: SocketScript): (NetAddr, NetAddr)
    requires SocketReturns(laddr, raddr, s)
  {
    if IsListenBranch(laddr, raddr) then (AddrPtr(laddr), AddrPtr(raddr))
    else (SockaddrToVSock(s.dial.sockname),
          ResolveRemote(DialSpec(ctx, laddr, raddr, s.dial).confirmed, s.dial.peername, raddr))
  }

  function SocketCalls(ctx: Context, laddr: Option<Addr>, raddr: Option<Addr>, s: SocketScript): seq<Call>
    requires SocketReturns(laddr, raddr, s)
  {
    [SysSocket(AF_VSOCK, SOCK_STREAM, 0)] +
    if s.socket.SocketFailed? then [] else SocketBranchCalls(s.socket.fd, ctx, laddr, raddr, s)
  }

  /** The calls of the listen or dial branch on the new descriptor, with the close that follows a failure. */
  function SocketBranchCalls(fd: int, ctx: Context, laddr: Option<Addr>, raddr: Option<Addr>, s: SocketScript): seq<Call>
    requires SocketReturns(laddr, raddr, s)
  {
    if IsListenBranch(laddr, raddr) then ListenBranchCalls(fd, laddr.value, s.backlog, s.listen)
    else DialBranchCalls(fd, ctx, laddr, raddr, s.dial)
  }

  function ListenBranchCalls(fd: int, laddr: Addr, backlog: int, s: ListenScript): seq<Call> {
    ListenStreamCalls(fd, laddr, backlog, s) + CloseCalls(fd, false, ListenStreamSpec(s).Some?)
  }

  function DialBranchCalls(fd: int, ctx: Context, laddr: Option<Addr>, raddr: Option<Addr>, s: DialScript): seq<Call>
    requires DialReturns(raddr, s)
  {
    DialCalls(fd, false, ctx, laddr, raddr, s)
    + CloseCalls(fd, DialSpec(ctx, laddr, raddr, s).closesFile, DialSpec(ctx, laddr, raddr, s).err.Some?)
  }

  /** How many times `calls` closes `fd`. */
  function Closes(fd: int, calls: seq<Call>): nat
    decreases |calls|
  {
    if calls == [] then 0
    else (if calls[0] == Call.Close(fd) then 1 else 0) + Closes(fd, calls[1..])
  }

  lemma {:induction false} ClosesAppend(fd: int, a: seq<Call>, b: seq<Call>)
    ensures Closes(fd, a + b) == Closes(fd, a) + Closes(fd, b)
    decreases |a|
  {
    if a != [] {
      assert (a + b)[0] == a[0] && (a + b)[1..] == a[1..] + b;
      ClosesAppend(fd, a[1..], b);
    } else {
      assert a + b == b;
    }
  }

  /** The polling loop reads state only: it never closes the descriptor. */
  lemma {:induction false} PollCallsNeverClose(fd: int, polls: seq<Poll>)
    ensures Closes(fd, PollCalls(fd, polls)) == 0
    decreases |polls|
  {
    if polls != [] {
      var step := StepCalls(fd, polls[0]);
      var rest := if PollStep(polls[0]).Some? then [] else PollCalls(fd, polls[1..]);
      assert Closes(fd, step) == 0 by {
        assert Closes(fd, [GetsockoptSoError(fd)]) == 0;
        assert Closes(fd, [Getpeername(fd)]) == 0;
        ClosesAppend(fd, [GetsockoptSoError(fd)], [Getpeername(fd)]);
      }
      PollCallsNeverClose(fd, polls[1..]);
      ClosesAppend(fd, step, rest);
    }
  }

  lemma ConnectCallsNeverClose(fd: int, rsa: Sockaddr, status: Status, polls: seq<Poll>)
    ensures Closes(fd, ConnectCalls(fd, rsa, status, polls)) == 0
  {
    var polled := if status.Failure? && IsPending(status.errno) then PollCalls(fd, polls) else [];
    PollCallsNeverClose(fd, polls);
    assert Closes(fd, [Call.Connect(fd, rsa)]) == 0;
    ClosesAppend(fd, [Call.Connect(fd, rsa)], polled);
  }

  /** A dial issues `close` once when `connect` closed the file for a cancelled context, else never. */
  lemma DialCloseCount(fd: int, ctx: Context, laddr: Option<Addr>, raddr: Option<Addr>, s: DialScript)
    requires DialReturns(raddr, s)
    ensures Closes(fd, DialCalls(fd, false, ctx, laddr, raddr, s)) ==
              if DialSpec(ctx, laddr, raddr, s).closesFile then 1 else 0
  {
    var d := DialSpec(ctx, laddr, raddr, s);
    var bind := DialBindCalls(fd, laddr);
    assert Closes(fd, bind) == 0;
    if !(laddr.Some? && s.bind.Failure?) {
      var connect := DialConnectCalls(fd, false, ctx, raddr, s);
      var addrs := if d.err.Some? then [] else DialAddrCalls(fd, d.confirmed);
      assert Closes(fd, addrs) == 0 by {
        if d.err.None? {
          assert Closes(fd, [Getsockname(fd)]) == 0;
          assert Closes(fd, [Getpeername(fd)]) == 0;
          ClosesAppend(fd, [Getsockname(fd)], if d.confirmed.None? then [Getpeername(fd)] else []);
        }
      }
      if raddr.Some? {
        var rsa := SockaddrOf(raddr, AF_VSOCK).value;
        var closes := CloseCalls(fd, false, ConnectSpec(ctx, s.connect, s.polls).closesFile);
        ConnectCallsNeverClose(fd, rsa, s.connect, s.polls);
        assert Closes(fd, closes) == if d.closesFile then 1 else 0;
        ClosesAppend(fd, ConnectCalls(fd, rsa, s.connect, s.polls), closes);
      }
      assert Closes(fd, connect) == if d.closesFile then 1 else 0;
      ClosesAppend(fd, connect, addrs);
      ClosesAppend(fd, bind, connect + addrs);
    }
  }

  lemma ListenStreamNeverCloses(fd: int, laddr: Addr, backlog: int, s: ListenScript)
    ensures Closes(fd, ListenStreamCalls(fd, laddr, backlog, s)) == 0
  {
    var bind := [Bind(fd, SockaddrOf(Some(laddr), AF_VSOCK).value)];
    var listen := if s.bind.Failure? then [] else [Listen(fd, backlog)];
    assert Closes(fd, [SetDefaultListenerSockopts(fd)]) == 0;
    assert Closes(fd, bind) == 0;
    assert Closes(fd, listen) == 0;
    ClosesAppend(fd, bind, listen);
    ClosesAppend(fd, [SetDefaultListenerSockopts(fd)], if s.sockopts.Some? then [] else bind + listen);
  }

  /**
    Every failure after the socket exists closes it with exactly one `close`,
    even when `connect` had already closed it; a success never closes it.
  */
  lemma SocketClosesOnceOnFailure(ctx: Context, laddr: Option<Addr>, raddr: Option<Addr>, s: SocketScript)
    requires SocketReturns(laddr, raddr, s) && s.socket.Created?
    ensures Closes(s.socket.fd, SocketCalls(ctx, laddr, raddr, s)) ==
              if SocketSpec(ctx, laddr, raddr, s).Some? then 1 else 0
  {
    var fd := s.socket.fd;
    var branch := SocketBranchCalls(fd, ctx, laddr, raddr, s);
    var err := SocketSpec(ctx, laddr, raddr, s);
    if IsListenBranch(laddr, raddr) {
      ListenStreamNeverCloses(fd, laddr.value, s.backlog, s.listen);
      ClosesAppend(fd, ListenStreamCalls(fd, laddr.value, s.backlog, s.listen), CloseCalls(fd, false, err.Some?));
    } else {
      var d := DialSpec(ctx, laddr, raddr, s.dial);
      DialCloseCount(fd, ctx, laddr, raddr, s.dial);
      DialClosesOnlyOnCancel(ctx, laddr, raddr, s.dial);
      ClosesAppend(fd, DialCalls(fd, false, ctx, laddr, raddr, s.dial), CloseCalls(fd, d.closesFile, d.err.Some?));
    }
    assert Closes(fd, [SysSocket(AF_VSOCK, SOCK_STREAM, 0)]) == 0;
    ClosesAppend(fd, [SysSocket(AF_VSOCK, SOCK_STREAM, 0)], branch);
  }

  // ---------------------------------------------------------------------
  // The descriptor

  /** The answer of a successful `accept`: the new descriptor and the peer's address. */
  datatype Accepted = Accepted(fd: int, peer: Sockaddr)

  class NetFD {
    const sysfd: int
    const name: string
    const family: int
    const sotype: int
    const net: string
    var laddr: NetAddr
    var raddr: NetAddr
    var closed: bool

    /** `newFD`: a fresh open descriptor with no addresses. */
    constructor (sysfd: int, name: string)
      ensures this.sysfd == sysfd && this.name == name
      ensures family == AF_UNIX && sotype == SOCK_STREAM && net == "vsock"
      ensures laddr == NilInterface && raddr == NilInterface && !closed
    {
      this.sysfd := sysfd;
      this.name := name;
      family := AF_UNIX;
      sotype := SOCK_STREAM;
      net := "vsock";
      laddr := NilInterface;
      raddr := NilInterface;
      closed := false;
    }

    /**
      Closes the file, whatever `close` answers; `answer` is that answer. A
      failing first close reports its errno, and any later close reports the
      file as already closed without a system call, both wrapped in the
      `PathError` of a "close" on this file.
    */
    method Close(k: Kernel, answer: Status) returns (err: Option<Error>)
      modifies this`closed, k
      ensures closed
      ensures err == CloseError(name, old(closed), answer)
      ensures k.calls == old(k.calls) + CloseCalls(sysfd, old(closed), true)
    {
      if closed {
        return Some(PathError("close", name, FileClosed));
      }
      k.calls := k.calls + [Call.Close(sysfd)];
      closed := true;
      if answer.Failure? {
        return Some(PathError("close", name, RawErrno(answer.errno)));
      }
      return None;
    }

    method SetAddr(laddr: NetAddr, raddr: NetAddr)
      modifies this`laddr, this`raddr
      ensures this.laddr == laddr && this.raddr == raddr
    {
      this.laddr := laddr;
      this.raddr := raddr;
    }

    /**
      Accepts a connection. The addresses derived from the answer are stored
      on this (the listening) descriptor; the accepted one keeps none.
    */
    method Accept(k: Kernel, answer: SysResult<Accepted>, sockname: Option<Sockaddr>)
      returns (nfd: NetFD?, err: Option<Error>)
      modifies this`laddr, this`raddr, k
      ensures answer.Fail? ==>
                nfd == null && err == Some(RawErrno(answer.errno)) &&
                laddr == old(laddr) && raddr == old(raddr) &&
                k.calls == old(k.calls) + [Call.Accept(sysfd)]
      ensures answer.Ok? ==>
                nfd != null && fresh(nfd) && err.None? &&
                nfd.sysfd == answer.value.fd && nfd.name == "accept" &&
                nfd.family == AF_UNIX && nfd.sotype == SOCK_STREAM && nfd.net == "vsock" &&
                nfd.laddr == NilInterface && nfd.raddr == NilInterface && !nfd.closed &&
                laddr == SockaddrToVSock(sockname) && raddr == SockaddrToVSock(Some(answer.value.peer)) &&
                k.calls == old(k.calls) + [Call.Accept(sysfd), Getsockname(answer.value.fd)]
    {
      k.calls := k.calls + [Call.Accept(sysfd)];
      if answer.Fail? {
        return null, Some(RawErrno(answer.errno));
      }
      var acceptFd := new NetFD(answer.value.fd, "accept");
      k.calls := k.calls + [Getsockname(acceptFd.sysfd)];
      laddr := SockaddrToVSock(sockname);
      raddr := SockaddrToVSock(Some(answer.value.peer));
      return acceptFd, None;
    }

    /** Default socket options, then bind, then listen; the first failure stops the sequence. */
    method ListenStream(k: Kernel, laddr: Addr, backlog: int, s: ListenScript) returns (err: Option<Error>)
      modifies k
      ensures err == ListenStreamSpec(s)
      ensures k.calls == old(k.calls) + ListenStreamCalls(sysfd, laddr, backlog, s)
    {
      k.calls := k.calls + [SetDefaultListenerSockopts(sysfd)];
      if s.sockopts.Some? {
        return s.sockopts;
      }
      // (*Addr).sockaddr never fails on a non-nil address
      var lsa := SockaddrOf(Some(laddr), AF_VSOCK);
      k.calls := k.calls + [Bind(sysfd, lsa.value)];
      if s.bind.Failure? {
        return Some(SyscallError("bind", s.bind.errno));
      }
      k.calls := k.calls + [Listen(sysfd, backlog)];
      if s.listen.Failure? {
        return Some(SyscallError("listen", s.listen.errno));
      }
      return None;
    }

    /** The listen branch of `socket`: listen, and close the file if that fails. */
    method ListenOrClose(k: Kernel, laddr: Addr, backlog: int, s: ListenScript) returns (err: Option<Error>)
      requires !closed
      modifies this`closed, k
      ensures err == ListenStreamSpec(s)
      ensures closed == err.Some?
      ensures k.calls == old(k.calls) + ListenBranchCalls(sysfd, laddr, backlog, s)
    {
      err := ListenStream(k, laddr, backlog, s);
      if err.Some? {
        var ignored := Close(k, Success);  // the error is discarded
      }
    }

    /** The dial branch of `socket`: dial, and close the file if that fails. */
    method DialOrClose(k: Kernel, ctx: Context, laddr: Option<Addr>, raddr: Option<Addr>, s: DialScript)
      returns (err: Option<Error>)
      requires !closed && DialReturns(raddr, s)
      modifies this, k
      ensures err == DialSpec(ctx, laddr, raddr, s).err
      ensures closed == err.Some?
      ensures err.Some? ==> this.laddr == old(this.laddr) && this.raddr == old(this.raddr)
      ensures err.None? ==>
                this.laddr == SockaddrToVSock(s.sockname) &&
                this.raddr == ResolveRemote(DialSpec(ctx, laddr, raddr, s).confirmed, s.peername, raddr)
      ensures k.calls == old(k.calls) + DialBranchCalls(sysfd, ctx, laddr, raddr, s)
    {
      err := Dial(k, ctx, laddr, raddr, s);
      ghost var d := DialSpec(ctx, laddr, raddr, s);
      ghost var dialed := k.calls;
      if err.Some? {
        var ignored := Close(k, Success);  // the error is discarded
        AppendAssoc(old(k.calls), DialCalls(sysfd, false, ctx, laddr, raddr, s), CloseCalls(sysfd, d.closesFile, true));
      } else {
        assert !d.closesFile;
      }
    }

    /**
      Optional bind, optional connect, then records the addresses: the local
      one from `getsockname`, the remote one from the confirmed peer, else
      `getpeername`, else the caller's. A failure leaves the addresses alone.
    */
    method Dial(k: Kernel, ctx: Context, laddr: Option<Addr>, raddr: Option<Addr>, s: DialScript)
      returns (err: Option<Error>)
      requires DialReturns(raddr, s)
      modifies this, k
      ensures err == DialSpec(ctx, laddr, raddr, s).err
      ensures closed == (old(closed) || DialSpec(ctx, laddr, raddr, s).closesFile)
      ensures err.Some? ==> this.laddr == old(this.laddr) && this.raddr == old(this.raddr)
      ensures err.None? ==>
                this.laddr == SockaddrToVSock(s.sockname) &&
                this.raddr == ResolveRemote(DialSpec(ctx, laddr, raddr, s).confirmed, s.peername, raddr)
      ensures k.calls == old(k.calls) + DialCalls(sysfd, old(closed), ctx, laddr, raddr, s)
    {
      ghost var d := DialSpec(ctx, laddr, raddr, s);
      ghost var bindCalls := DialBindCalls(sysfd, laddr);
      var crsa: Option<Sockaddr> := None;
      if laddr.Some? {
        var lsa := SockaddrOf(laddr, AF_VSOCK);
        k.calls := k.calls + [Bind(sysfd, lsa.value)];
        if s.bind.Failure? {
          return Some(SyscallError("bind", s.bind.errno));
        }
      }
      assert k.calls == old(k.calls) + bindCalls;
      ghost var connectCalls := DialConnectCalls(sysfd, old(closed), ctx, raddr, s);
      if raddr.Some? {
        var rsa := SockaddrOf(raddr, AF_VSOCK);
        var cerr;
        crsa, cerr := Connect(k, ctx, rsa.value, s.connect, s.polls);
        AppendAssoc(old(k.calls) + bindCalls, ConnectCalls(sysfd, rsa.value, s.connect, s.polls),
                    CloseCalls(sysfd, old(closed), ConnectSpec(ctx, s.connect, s.polls).closesFile));
        if cerr.Some? {
          AppendAssoc(old(k.calls), bindCalls, connectCalls);
          return cerr;
        }
      }
      assert k.calls == old(k.calls) + bindCalls + connectCalls;
      assert d.err.None? && d.confirmed == crsa;
      ghost var before := k.calls;
      SetDialAddrs(k, crsa, raddr, s.sockname, s.peername);
      AppendAssoc(old(k.calls), bindCalls, connectCalls + DialAddrCalls(sysfd, crsa));
      AppendAssoc(old(k.calls) + bindCalls, connectCalls, DialAddrCalls(sysfd, crsa));
      return None;
    }

    /**
      The end of `dial`: the local address from `getsockname`; the remote one
      from the confirmed peer, else from `getpeername`, else the caller's.
    */
    method SetDialAddrs(k: Kernel, crsa: Option<Sockaddr>, raddr: Option<Addr>,
                        sockname: Option<Sockaddr>, peername: Option<Sockaddr>)
      modifies this`laddr, this`raddr, k
      ensures this.laddr == SockaddrToVSock(sockname)
      ensures this.raddr == ResolveRemote(crsa, peername, raddr)
      ensures k.calls == old(k.calls) + DialAddrCalls(sysfd, crsa)
    {
      k.calls := k.calls + [Getsockname(sysfd)];
      var lsa := sockname;
      if crsa.Some? {
        this.laddr := SockaddrToVSock(lsa);
        this.raddr := SockaddrToVSock(crsa);
      } else {
        k.calls := k.calls + [Getpeername(sysfd)];
        var rsa := peername;
        if rsa.Some? {
          this.laddr := SockaddrToVSock(lsa);
          this.raddr := SockaddrToVSock(rsa);
        } else {
          this.laddr := SockaddrToVSock(lsa);
          this.raddr := AddrPtr(raddr);
        }
      }
    }

    /**
      One turn of the loop of `connect`, on the answers still to come: reads
      SO_ERROR and, when it is 0, asks for the peer. `done` is false when the
      loop must poll again.
    */
    method PollOnce(k: Kernel, polls: seq<Poll>) returns (done: bool, result: Connected)
      requires polls != []
      modifies k
      ensures done == PollStep(polls[0]).Some?
      ensures done ==> result == PollLoop(polls).value
      ensures !done ==> PollLoop(polls[1..]) == PollLoop(polls)
      ensures k.calls == old(k.calls) + StepCalls(sysfd, polls[0])
    {
      var p := polls[0];
      k.calls := k.calls + [GetsockoptSoError(sysfd)];
      done, result := false, Connected(None, None);
      match p.soError {
        case Fail(e) =>
          done, result := true, Connected(None, Some(SyscallError("getsockopt", e)));
        case Ok(nerr) =>
          if IsPending(nerr) {
            // still in progress: poll again
          } else if nerr == EISCONN {
            done, result := true, Connected(None, None);
          } else if nerr == 0 {
            // a wakeup may be spurious: only a peer confirms the connection
            k.calls := k.calls + [Getpeername(sysfd)];
            if p.peer.Ok? {
              done, result := true, Connected(Some(p.peer.value), None);
            }
          } else {
            done, result := true, Connected(None, Some(SyscallError("connect", nerr)));
          }
      }
    }

    /**
      The loop of `connect`: polls until an answer ends it. Pending errnos,
      and a zero that `getpeername` does not confirm, poll again.
    */
    method PollSoError(k: Kernel, polls: seq<Poll>) returns (result: Connected)
      requires PollLoop(polls).Some?
      modifies k
      ensures result == PollLoop(polls).value
      ensures k.calls == old(k.calls) + PollCalls(sysfd, polls)
    {
      ghost var total := old(k.calls) + PollCalls(sysfd, polls);
      var rest := polls;
      while true
        invariant PollLoop(rest) == PollLoop(polls)
        invariant k.calls + PollCalls(sysfd, rest) == total
        decreases |rest|
      {
        assert rest != [];
        ghost var before := k.calls;
        ghost var later := if PollStep(rest[0]).Some? then [] else PollCalls(sysfd, rest[1..]);
        AppendAssoc(before, StepCalls(sysfd, rest[0]), later);
        var done;
        done, result := PollOnce(k, rest);
        if done {
          break;
        }
        rest := rest[1..];
      }
    }

    /**
      The non-blocking connect: classify the immediate answer, poll SO_ERROR
      until an answer ends the loop, then apply the context merge.
    */
    method Connect(k: Kernel, ctx: Context, rsa: Sockaddr, status: Status, polls: seq<Poll>)
      returns (peer: Option<Sockaddr>, err: Option<Error>)
      requires ConnectReturns(status, polls)
      modifies this`closed, k
      ensures Connected(peer, err) == ConnectSpec(ctx, status, polls).result
      ensures closed == (old(closed) || ConnectSpec(ctx, status, polls).closesFile)
      ensures k.calls == old(k.calls) + ConnectCalls(sysfd, rsa, status, polls)
                         + CloseCalls(sysfd, old(closed), ConnectSpec(ctx, status, polls).closesFile)
    {
      k.calls := k.calls + [Call.Connect(sysfd, rsa)];
      var immediate: nat := if status.Success? then 0 else status.errno;
      if immediate == 0 || immediate == EISCONN {
        if ctx.Done() {
          return None, Some(ContextError(ctx.fired.value));
        }
        return None, None;
      } else if !IsPending(immediate) {
        return None, Some(SyscallError("connect", immediate));
      }

      var result := PollSoError(k, polls);
      AppendAssoc(old(k.calls), [Call.Connect(sysfd, rsa)], PollCalls(sysfd, polls));
      peer, err := result.peer, result.err;
      if ctx.Cancelable? {
        // what the interrupter reports: the context's error if it fired first
        var interruptRes := ctx.fired;
        if interruptRes.Some? && err.None? {
          err := Some(ContextError(interruptRes.value));
          var ignored := Close(k, Success);  // the error is discarded
        }
      }
    }
  }

  /**
    Allocates a VSOCK stream socket, records the caller's addresses, then
    listens (local address only) or dials. On any failure after allocation
    the descriptor is closed and no descriptor is returned.
  */
  method Socket(k: Kernel, ctx: Context, laddr: Option<Addr>, raddr: Option<Addr>, s: SocketScript)
    returns (fd: NetFD?, err: Option<Error>, ghost created: NetFD?)
    requires SocketReturns(laddr, raddr, s)
    modifies k
    ensures err == SocketSpec(ctx, laddr, raddr, s)
    ensures fd == null <==> err.Some?
    ensures created == null <==> s.socket.SocketFailed?
    ensures created != null ==>
              fresh(created) && created.sysfd == s.socket.fd && created.name == "socket" &&
              created.family == AF_UNIX && created.sotype == SOCK_STREAM && created.net == "vsock"
    ensures created != null && err.Some? ==> created.closed
    ensures fd != null ==> fd == created && !fd.closed && (fd.laddr, fd.raddr) == SocketAddrs(ctx, laddr, raddr, s)
    ensures k.calls == old(k.calls) + SocketCalls(ctx, laddr, raddr, s)
  {
    k.calls := k.calls + [SysSocket(AF_VSOCK, SOCK_STREAM, 0)];
    created := null;
    if s.socket.SocketFailed? {
      fd, err := null, Some(s.socket.err);
      return;
    }
    var nfd := new NetFD(s.socket.fd, "socket");
    created := nfd;
    nfd.SetAddr(AddrPtr(laddr), AddrPtr(raddr));
    ghost var start := k.calls;
    AppendAssoc(old(k.calls), [SysSocket(AF_VSOCK, SOCK_STREAM, 0)],
                SocketBranchCalls(nfd.sysfd, ctx, laddr, raddr, s));

    if laddr.Some? && raddr.None? {
      err := nfd.ListenOrClose(k, laddr.value, s.backlog, s.listen);
    } else {
      err := nfd.DialOrClose(k, ctx, laddr, raddr, s.dial);
    }
    fd := if err.Some? then null else nfd;
  }
}
