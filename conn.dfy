/** The connection wrapper handed to callers: one descriptor, owned exclusively. */
module Conns {
  import opened Vsock
  import opened Fd

  class Conn {
    const fd: NetFD

    /** `newConn`: wraps exactly the given descriptor. */
    constructor (fd: NetFD)
      ensures this.fd == fd
    {
      this.fd := fd;
    }

    function LocalAddr(): NetAddr
      reads fd
    {
      fd.laddr
    }

    function RemoteAddr(): NetAddr
      reads fd
    {
      fd.raddr
    }
  }
}
