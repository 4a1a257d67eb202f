# darwin-vsock socket layer in Dafny

darwin-vsock is a Go library. It gives programs on macOS `net.Listener` and
`net.Conn` values over AF_VSOCK, the host/guest socket family of
Virtualization.framework. This project models its socket layer:

- the VSOCK address `Addr`: its network name, its `"<cid>:<port>"` text, its
  family, its wildcard test and its conversion to a native `SockaddrVM`;
- the network file descriptor `netFD` (`fd.go`):
  - `newFD`, `setAddr`, `Close` and `accept`;
  - `socket`, which allocates the socket and then listens or dials;
  - `listenStream`: default options, `bind`, `listen`;
  - `dial`: optional `bind`, optional `connect`, then the recorded addresses;
  - the non-blocking `connect` with its SO_ERROR polling loop and its
    context merge;
  - `sockaddrToVSock`;
- `Listen` and the listener's `Accept`, `Close` and `Addr`;
- `Dial` and `DialContext`.

The operating system is an oracle. Every system call's answer is a parameter:
- `ListenScript` holds the default-options helper, `bind` and `listen`;
- `DialScript` holds `bind`, the immediate `connect` answer, one `Poll` per
  loop turn, and the `getsockname`/`getpeername` results;
- `SocketScript` holds the socket allocation and the backlog.

A `Kernel` object keeps a ghost log of the calls issued. The methods are
proved against pure specification functions of these answers. `ConnectSpec`,
`DialSpec` and `SocketSpec` give the error and outcome; `SocketAddrs` and
`ResolveRemote` give the recorded addresses; `ListenStreamCalls`, `DialCalls`
and `SocketCalls` give the exact call sequence. Lemmas then state the
library's promises about those functions.

Two Go details are kept because they are observable:
- A `net.Addr` field may hold the nil interface or a typed `*Addr` that is
  itself nil. The model tells them apart with `NetAddr = NilInterface |
  AddrPtr(Option<Addr>)`. The difference shows in the unknown-network
  `OpError` of `Dial` and `Listen`: a nil caller address is stored as a
  typed nil pointer, which `net.OpError` formats by calling `String` on it
  (`Errors.FormatsNilAddr`).
- The caller's context is `Background` or `Cancelable(fired)`. `fired` says
  whether the context was done, and with which error, when the code looked
  at it. That covers both the immediate `ctx.Done()` check and the
  interrupter goroutine's answer.

Numeric constants are the Darwin values of `golang.org/x/sys/unix`:
- EINTR 4, EINPROGRESS 36, EALREADY 37, EISCONN 56, ECONNREFUSED 61;
- AF_UNIX 1, AF_VSOCK 40, SOCK_STREAM 1;
- VMADDR_CID_ANY 0xFFFFFFFF.

### What the code does, where a reader might expect otherwise

The model follows the code in each of these cases:

- `accept` (fd.go:56-57) stores the addresses it derives on the *listening*
  descriptor. The accepted descriptor keeps nil addresses, so a `Conn`
  returned by `Listener.Accept` reports nil `LocalAddr`/`RemoteAddr`.
  `Fd.NetFD.Accept` and `Listening.Listener.Accept` state exactly that.
- The connect loop (fd.go:198-218) busy-polls `getsockopt(SO_ERROR)` and
  never waits on the poller. Cancelling the context therefore does not
  interrupt the loop. It only changes the result afterwards, through the
  deferred merge (fd.go:177-183). `Fd.ConnectCancellation` states the merge.
- `Listen("vsock", nil)` takes the dial branch of `socket` (fd.go:81) with
  no remote address. It succeeds without ever binding or listening
  (`Listening.ListenWithoutAddressNeverListens`).
- When a cancelled connect has already closed the file (fd.go:181), the
  close in `socket` (fd.go:89) finds it closed and issues no second
  `close(2)` (`Fd.SocketClosesOnceOnFailure`).

## Model

| member | source | states |
|---|---|---|
| Vsock.Addr.Network | vsock.go:20 | the network name of every address is "vsock" |
| Vsock.Addr.String | vsock.go:21 | the decimal "cid:port" text parses back to the same address, so no information is lost |
| Vsock.Decimal | vsock.go:21 | the `%d` numeral is a non-empty run of digits with no colon, and it starts with '0' only for zero |
| Vsock.StringInjective | vsock.go:21 | two addresses with the same text are equal |
| Vsock.DecimalRoundTrip | vsock.go:21 | the `%d` numeral of a natural number reads back to that number |
| Vsock.Addr.Family | vsock.go:23 | the family of every address is AF_VSOCK |
| Vsock.Addr.IsWildcard | vsock.go:24 | an address is a wildcard exactly when its native form carries VMADDR_CID_ANY |
| Vsock.SockaddrOf | vsock.go:25-33 | a nil address has no sockaddr; any other gives a SockaddrVM with the same CID and port, whatever the family argument |
| Fd.SockaddrToVSock | fd.go:231-239 | the result is non-nil exactly for a VSOCK sockaddr, and then it is the `*Addr` with the same CID and port |
| Fd.SockaddrRoundTrip | fd.go:231-239 | converting an address to its sockaddr and back yields the same address |
| Fd.SockaddrRoundTripBack | fd.go:231-239 | a sockaddr that converts to an address is the one that address converts to |
| Fd.NetFD.constructor | fd.go:221-229 | a new descriptor has the given number and name, family AF_UNIX, type SOCK_STREAM, net "vsock", nil addresses, and is open |
| Fd.CloseError | fd.go:31 | a close reports nothing exactly when the file was open and `close` succeeded; otherwise it reports a "close" PathError on the file, carrying the errno on a failed first close and "already closed" on any later close |
| Fd.NetFD.Close | fd.go:31 | the file ends closed whatever `close` answers; the first close issues one `close` and reports its failure, a later one issues none and reports the file as already closed |
| Fd.NetFD.SetAddr | fd.go:33-36 | both addresses are replaced by the given ones |
| Fd.NetFD.Accept | fd.go:49-59 | on an accept error nothing changes and the raw errno is returned; on success a fresh open descriptor named "accept" with nil addresses is returned, the listening descriptor's addresses become the converted local and peer addresses, and `accept` then `getsockname` on the new descriptor are issued |
| Fd.PollAnswerOutcome | fd.go:198-218 | for each kind of loop answer: a getsockopt failure ends with that error tagged "getsockopt"; pending errnos and an unconfirmed zero poll again; EISCONN ends with no peer; a confirmed zero ends with the peer; any other errno ends tagged "connect" |
| Fd.PollLoopFirstFinal | fd.go:198-218 | the loop's outcome is that of the first answer that ends it |
| Fd.PollLoopFirstFinalExists | fd.go:198-218 | whenever the loop returns, its outcome is one answer's own outcome |
| Fd.PollLoopKeepsPolling | fd.go:198-218 | the loop is still polling at the end of the answers exactly when no answer ends it |
| Fd.PollLoopNeverSurfacesPending | fd.go:204-205 | an in-progress errno is never returned as the loop's error |
| Fd.PollLoopPeerConfirmed | fd.go:208-214 | the loop returns a peer only with no error, and only one that `getpeername` gave after an SO_ERROR of 0 |
| Fd.PollCallsNeverClose | fd.go:198-218 | the loop never closes the descriptor |
| Fd.NetFD.PollOnce | fd.go:199-217 | one turn issues `getsockopt`, plus `getpeername` when SO_ERROR is 0; it ends the loop exactly when the answer is final, and then with the loop's outcome |
| Fd.NetFD.PollSoError | fd.go:198-218 | the loop returns the first final answer's outcome and issues exactly the calls of the turns up to it |
| Fd.ConnectImmediateSuccess | fd.go:154-161 | an immediate success or EISCONN returns no peer and does not poll; the error is the context's exactly when the context is done, and the file is not closed |
| Fd.ConnectHardFailure | fd.go:162-165 | any other immediate errno that is not pending fails, tagged "connect", without polling or closing |
| Fd.ConnectCancellation | fd.go:177-183 | after polling, the file is closed exactly when the context is done and the loop returned no error; the loop's peer is kept; an error from the loop is never overwritten; without a done context the loop's result is returned unchanged |
| Fd.BackgroundNeverCancels | fd.go:167 | with the background context the file is never closed and no context error is returned |
| Fd.ConnectNeverSurfacesPending | fd.go:153-219 | connect never reports an in-progress errno as its error |
| Fd.ConnectPeerConfirmed | fd.go:208-214 | a peer comes only from a pending immediate answer followed by a zero SO_ERROR that `getpeername` confirmed |
| Fd.ConnectCallsNeverClose | fd.go:153-219 | connect issues no `close` before its deferred merge |
| Fd.ConnectInProgressThenRefused | fd.go:153-219 | a connect still in progress at the first poll and refused at the second fails with ECONNREFUSED tagged "connect", whatever the context, without closing the file |
| Fd.NetFD.Connect | fd.go:153-219 | the peer and error are those of the connect specification; the file is closed exactly when the merge says so; the calls are `connect`, the loop's calls, and at most one `close` |
| Fd.ListenStreamOrder | fd.go:95-110 | listening succeeds exactly when default options, bind and listen all succeed; the calls are options, bind, listen, in that order, each only after the previous one succeeded; each failure returns its own error, bind and listen tagged with their call |
| Fd.ListenStreamNeverCloses | fd.go:95-110 | listenStream never closes the descriptor |
| Fd.NetFD.ListenStream | fd.go:95-110 | the error and the calls issued are those of the listen specification |
| Fd.NetFD.ListenOrClose | fd.go:82-86 | a failed listen closes the file and a successful one leaves it open |
| Fd.DialClosesOnlyOnCancel | fd.go:125-131 | dial closes the file only when it fails with the error of a context that is done |
| Fd.DialRecordsConfirmedPeer | fd.go:133-143 | a successful dial records the confirmed peer if connect gave one, else the `getpeername` answer, else the caller's remote address |
| Fd.DialCloseCount | fd.go:113-145 | dial issues one `close` when connect closed the file, and none otherwise |
| Fd.NetFD.SetDialAddrs | fd.go:133-143 | the local address comes from `getsockname`, the remote one from the fallback chain; `getpeername` is issued only without a confirmed peer |
| Fd.NetFD.Dial | fd.go:113-145 | the error, the closing of the file and the calls follow the dial specification: bind only with a local address, connect only with a remote one, addresses read only on success; a failure leaves the addresses unchanged |
| Fd.NetFD.DialOrClose | fd.go:88-92 | a failed dial leaves the file closed and a successful one leaves it open |
| Fd.Socket | fd.go:70-93 | allocates an AF_VSOCK stream socket, then listens when there is a local and no remote address and dials otherwise; it returns a descriptor exactly when there is no error; the error, the addresses and the calls follow the socket specification; a descriptor created and then failed is closed |
| Fd.SocketClosesOnceOnFailure | fd.go:81-92 | once the socket exists, every failure leads to exactly one `close`, even when connect closed it first, and a success to none |
| Conns.Conn.constructor | conn.go:14-18 | a connection wraps exactly the given descriptor |
| Listening.Listener.constructor | listener.go:45-48 | a listener holds the given descriptor and the caller's address |
| Listening.Listener.Accept | listener.go:15-21 | an accept error is returned with no connection; otherwise a new connection on a fresh descriptor, never the listening one, with nil addresses, while the listening descriptor's addresses are overwritten |
| Listening.Listener.Close | listener.go:23-25 | closes the listening descriptor and returns what that close reports: the `close` failure on the first close, "already closed" on a later one |
| Listening.Listener.Addr | listener.go:27-29 | the address is the one given to Listen, as a typed pointer, never read back from the OS |
| Listening.Listen | listener.go:31-49 | any network other than "vsock" fails with an unknown-network OpError (nil source, the caller's address) and issues no call, and that error holds a typed nil pointer exactly when no address was given; otherwise the result is that of socket with the background context and no remote address, and a listener exactly when there is no error |
| Listening.ListenBindsThenListens | listener.go:41 | with a local address, a successful Listen has issued socket, default options, bind and listen, in that order |
| Listening.ListenWithoutAddressNeverListens | listener.go:41 | without a local address, Listen fails only when the socket cannot be allocated, and never binds, listens or connects |
| Dialing.DialContext | dialer.go:12-27 | any network other than "vsock" fails with an unknown-network OpError carrying both caller addresses and issues no call, and that error holds a typed nil pointer exactly when an address is missing; otherwise the result, the connection's addresses and the calls are those of socket, and a connection is returned exactly when there is no error |
| Dialing.Dial | dialer.go:8-10 | the same as DialContext with the background context |

## Left out

- Real system calls. `socket`, `bind`, `listen`, `connect`, `getsockopt`,
  `getpeername`, `getsockname`, `accept` and `close` are answers passed in.
  The Go runtime helpers reached through `go:linkname` are answers too:
  `sysSocket`, `setDefaultListenerSockopts` and `listenerBacklog`.
- The interrupter goroutine and its channels. Only their observable result is
  kept: whether the context was done when looked at, and with which error.
- Write deadlines (fd.go:168-170 and 190). They have no effect on the outcome
  here, because the loop never waits on the poller.
- The `os.File` wrapper. Closing is modelled as a flag, one `close` call
  and that call's answer. The closes inside `socket` (fd.go:83, 89) and
  `connect` (fd.go:181) discard their error, so the model gives them a
  successful answer. Only `Listener.Close` passes a close error on.
- Fd.NetFD.Connect: modelled only for answer lists in which some answer ends
  the loop. With any other list the Go loop polls forever (fd.go:198-218).
  The unused `lsa` parameter is dropped.
- Fd.NetFD.Accept: a failing `getsockname` after `accept` is modelled as a
  nil address, because its error is discarded (fd.go:55).
- `GetLocalCID` (vsock.go:35-39), the `ioctl` query of the local CID, and
  the `Read`, `Write`, `Close` and deadline methods of `Conn`
  (conn.go:20-22 and 25-27). All of these forward to the OS file and hold
  no logic. `LocalAddr` and `RemoteAddr` (conn.go:23-24) are modelled as
  the accessors `Conns.Conn.LocalAddr` and `Conns.Conn.RemoteAddr`, which
  the contracts of `Dial` and `Listener.Accept` use.
- Vsock.Addr.String: defined on values, so it does not model the panic of
  Go's `(*Addr).String` on a nil receiver (vsock.go:21 dereferences it).
  That panic is reachable through the unknown-network `OpError` of `Dial`
  or `Listen` with a nil address; the model only marks such errors
  (`Errors.FormatsNilAddr`).
- Vsock.Addr.IsWildcard: defined on values, so it does not model the panic
  of Go's `(*Addr).isWildcard` on a nil receiver (vsock.go:24). Nothing in
  the core calls it.
- The `name()` helper of `netFD`, which is commented out in the source.
- Integer widths of file descriptors and the backlog. Go `int` is kept as
  an unbounded integer, and nothing in the core does arithmetic on them.
