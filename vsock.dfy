/**
  The VSOCK address: a context identifier (CID) and a port, both unsigned
  32-bit, with its network name, its canonical "<cid>:<port>" text and its
  conversion to the native socket address.
*/
module Vsock {
  import opened Os

  datatype Addr = Addr(cid: uint32, port: uint32) {

    /** The network name of every VSOCK address. */
    function Network(): (n: string)
      ensures n == "vsock"
    {
      "vsock"
    }

    /** `fmt.Sprintf("%d:%d", CID, Port)`: decimal CID, a colon, decimal port. */
    function String(): (s: string)
      ensures ParseAddr(s) == Some(this)
    {
      StringParses(this);
      Decimal(cid as nat) + ":" + Decimal(port as nat)
    }

    /** The address family, whatever the address. */
    function Family(): (f: int)
      ensures f == AF_VSOCK
    {
      AF_VSOCK
    }

    /** An address is a wildcard exactly when its CID is VMADDR_CID_ANY. */
    predicate IsWildcard()
      ensures IsWildcard() <==> SockaddrOf(Some(this), AF_VSOCK) == Some(SockaddrVM(VMADDR_CID_ANY, port))
    {
      cid == VMADDR_CID_ANY
    }
  }

  /**
    A Go `net.Addr` interface value holding a VSOCK address: the nil
    interface, or a `*Addr` pointer, which may itself be nil.
  */
  datatype NetAddr = NilInterface | AddrPtr(ptr: Option<Addr>)

  /**
    `(*Addr).sockaddr`: a nil address gives no sockaddr, any other address
    the VSOCK sockaddr with the same CID and port. The family argument is
    ignored and the Go error result is always nil, so it is not modelled.
  */
  function SockaddrOf(a: Option<Addr>, family: int): (sa: Option<Sockaddr>)
    ensures a.None? <==> sa.None?
    ensures a.Some? ==> sa.value.SockaddrVM?
    ensures a.Some? ==> sa.value.cid == a.value.cid && sa.value.port == a.value.port
  {
    match a
    case None => None
    case Some(addr) => Some(SockaddrVM(addr.cid, addr.port))
  }

  // ---------------------------------------------------------------------
  // Decimal text, and its inverse used to state that String() loses nothing

  predicate IsDigits(s: string) {
    forall i :: 0 <= i < |s| ==> '0' <= s[i] <= '9'
  }

  function Digit(d: nat): (c: char)
    requires d < 10
    ensures '0' <= c <= '9' && (c as int) - ('0' as int) == d
  {
    (('0' as int) + d) as char
  }

  /** The shortest decimal numeral of `n`, as `%d` prints it. */
  function Decimal(n: nat): (s: string)
    ensures |s| > 0 && IsDigits(s)
    ensures ':' !in s
    ensures s[0] == '0' ==> n == 0
  {
    if n < 10 then [Digit(n)] else Decimal(n / 10) + [Digit(n % 10)]
  }

  /** The value of a string of decimal digits. */
  function DecimalValue(s: string): nat
    requires IsDigits(s)
  {
    if s == [] then 0
    else DecimalValue(s[..|s| - 1]) * 10 + ((s[|s| - 1] as int) - ('0' as int))
  }

  lemma {:induction false} DecimalRoundTrip(n: nat)
    ensures DecimalValue(Decimal(n)) == n
  {
    var s := Decimal(n);
    if n >= 10 {
      assert s[..|s| - 1] == Decimal(n / 10);
      DecimalRoundTrip(n / 10);
    }
  }

  /** Index of the first ':' in `s`, or `|s|` when there is none. */
  function ColonIndex(s: string): (i: nat)
    ensures i <= |s|
    ensures forall j :: 0 <= j < i ==> s[j] != ':'
    ensures i < |s| ==> s[i] == ':'
  {
    if s == [] then 0
    else if s[0] == ':' then 0
    else 1 + ColonIndex(s[1..])
  }

  /** Reads "<cid>:<port>" back; `None` for anything String() cannot print. */
  function ParseAddr(s: string): Option<Addr>
  {
    var i := ColonIndex(s);
    if i == |s| then None
    else
      var c, p := s[..i], s[i + 1..];
      if c == [] || p == [] || !IsDigits(c) || !IsDigits(p) then None
      else
        var cv, pv := DecimalValue(c), DecimalValue(p);
        if cv < 0x1_0000_0000 && pv < 0x1_0000_0000 then Some(Addr(cv as uint32, pv as uint32))
        else None
  }

  lemma StringParses(a: Addr)
    ensures ParseAddr(Decimal(a.cid as nat) + ":" + Decimal(a.port as nat)) == Some(a)
  {
    var c, p := Decimal(a.cid as nat), Decimal(a.port as nat);
    var s := c + ":" + p;
    assert forall j :: 0 <= j < |c| ==> s[j] == c[j];
    assert s[|c|] == ':';
    assert ColonIndex(s) == |c|;
    assert s[..|c|] == c;
    assert s[|c| + 1..] == p;
    DecimalRoundTrip(a.cid as nat);
    DecimalRoundTrip(a.port as nat);
  }

  /** Two addresses print alike only if they are equal. */
  lemma StringInjective(a: Addr, b: Addr)
    requires a.String() == b.String()
    ensures a == b
  {
    assert ParseAddr(a.String()) == Some(a);
  }
}
