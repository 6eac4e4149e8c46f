/**
 * The Consul address handling shared by the module client's constructor and
 * the module server configuration: a leading "http://" is dropped and, when
 * a ':' remains, the text is split at the first one and the part after it is
 * read as the port with `int()`.
 */
module Address {
  import opened Wrappers
  import opened Text
  import opened Values

  /** The address either had no ':' left, or split into a host and a parsed port. */
  datatype HostPort = NoPort(host: string) | HostAndPort(host: string, port: int)

  /** `addr[7:]` when `addr.startswith("http://")`. */
  function DropHttp(addr: string): (r: string)
    ensures "http://" <= addr ==> addr == "http://" + r
    ensures !("http://" <= addr) ==> r == addr
  {
    if "http://" <= addr then addr[7..] else addr
  }

  /** `host, port = addr.split(":", 1); port = int(port)` guarded by `":" in addr`. */
  function ParseAddress(addr: string): (r: Result<HostPort, PyError>)
    ensures !Contains(DropHttp(addr), ":") ==> r == Ok(NoPort(DropHttp(addr)))
    ensures r.Ok? && r.value.HostAndPort? ==>
      var a := DropHttp(addr);
      && |r.value.host| < |a| && a[..|r.value.host|] == r.value.host && a[|r.value.host|] == ':'
      && !Contains(r.value.host, ":")
      && ParseInt(a[|r.value.host| + 1..]) == Some(r.value.port)
    ensures r.Err? ==> Contains(DropHttp(addr), ":")
  {
    var a := DropHttp(addr);
    match IndexOf(a, ":")
    case None => Ok(NoPort(a))
    case Some(i) =>
      assert a == a[..i] + ":" + a[i + 1..] by {
        assert a[i..i + 1] == ":";
      }
      NoColonBefore(a, i);
      match ParseInt(a[i + 1..])
      case None => Err(ValueError("invalid literal for int() with base 10"))
      case Some(port) => Ok(HostAndPort(a[..i], port))
  }

  /** A prefix that ends before the first ':' holds no ':'. */
  lemma NoColonBefore(a: string, i: nat)
    requires OccursAt(a, ":", i)
    requires forall j :: 0 <= j < i ==> !OccursAt(a, ":", j)
    ensures !Contains(a[..i], ":")
  {
    if Contains(a[..i], ":") {
      var j := IndexOf(a[..i], ":").value;
      assert a[j..j + 1] == a[..i][j..j + 1];
      assert OccursAt(a, ":", j);
      assert false;
    }
  }

  /** In `host + ":" + rest` with no ':' in `host`, the first ':' is the one after `host`. */
  lemma FirstColon(host: string, rest: string)
    requires !Contains(host, ":")
    ensures IndexOf(host + ":" + rest, ":") == Some(|host|)
  {
    var a := host + ":" + rest;
    assert OccursAt(a, ":", |host|);
    forall j | 0 <= j < |host| ensures !OccursAt(a, ":", j) {
      if OccursAt(a, ":", j) {
        assert host[j..j + 1] == a[j..j + 1];
        ContainsAt(host, ":", j);
      }
    }
  }

  /** `f"http://{host}:{port}"` parses back into the host and port it was built from. */
  lemma PrintedAddressParses(host: string, port: int)
    requires !Contains(host, ":")
    ensures ParseAddress("http://" + host + ":" + IntToString(port)) == Ok(HostAndPort(host, port))
  {
    var addr := "http://" + host + ":" + IntToString(port);
    PrintedAddressPieces(host, IntToString(port));
    ParseIntToString(port);
    SplitAtColon(addr, |host|, port);
  }

  /** The pieces of `"http://" + host + ":" + rest` for a host without ':'. */
  lemma PrintedAddressPieces(host: string, rest: string)
    requires !Contains(host, ":")
    ensures var a := DropHttp("http://" + host + ":" + rest);
      && a == host + ":" + rest
      && IndexOf(a, ":") == Some(|host|)
      && a[..|host|] == host && a[|host| + 1..] == rest
  {
    var a := host + ":" + rest;
    assert "http://" + host + ":" + rest == "http://" + a;
    DropHttpPrinted(a);
    FirstColon(host, rest);
    assert a[|host| + 1..] == rest;
    assert a[..|host|] == host;
  }

  /** An address whose first ':' after "http://" is at `i` and is followed by a number splits there. */
  lemma SplitAtColon(addr: string, i: nat, port: int)
    requires IndexOf(DropHttp(addr), ":") == Some(i)
    requires ParseInt(DropHttp(addr)[i + 1..]) == Some(port)
    ensures ParseAddress(addr) == Ok(HostAndPort(DropHttp(addr)[..i], port))
  {
  }

  lemma DropHttpPrinted(a: string)
    ensures DropHttp("http://" + a) == a
  {
    assert ("http://" + a)[..7] == "http://";
  }
}
