/**
 * net.SplitHostPort, which limitMiddleware uses to take the client IP out of
 * the request's remote address ("host:port" or "[host]:port").
 */
module Net {
  import opened Wrappers
  import opened Errors

  const MissingPort := "missing port in address"
  const TooManyColons := "too many colons in address"
  const MissingBracket := "missing ']' in address"
  const UnexpectedOpen := "unexpected '[' in address"
  const UnexpectedClose := "unexpected ']' in address"

  /** The index of the first `c` in `s`. */
  function IndexOf(s: string, c: char): (r: Option<nat>)
    ensures r.Some? ==> r.value < |s| && s[r.value] == c && c !in s[..r.value]
    ensures r.None? <==> c !in s
  {
    if s == [] then None
    else if s[0] == c then Some(0)
    else
      match IndexOf(s[1..], c)
      case None => None
      case Some(i) =>
        assert s[..i + 1] == [s[0]] + s[1..][..i];
        Some(i + 1)
  }

  /** The index of the last `c` in `s`. */
  function LastIndexOf(s: string, c: char): (r: Option<nat>)
    ensures r.Some? ==> r.value < |s| && s[r.value] == c && c !in s[r.value + 1..]
    ensures r.None? <==> c !in s
  {
    if s == [] then None
    else if s[|s| - 1] == c then Some(|s| - 1)
    else
      match LastIndexOf(s[..|s| - 1], c)
      case None =>
        assert s == s[..|s| - 1] + [s[|s| - 1]];
        None
      case Some(i) =>
        assert s[i + 1..] == s[..|s| - 1][i + 1..] + [s[|s| - 1]];
        Some(i)
  }

  /** An *AddrError for `addr`. */
  function AddrError(addr: string, why: string): Error
  {
    Leaf("address " + addr + ": " + why)
  }

  /** net.SplitHostPort: the host and port of `hostport`, or the reason it is malformed. */
  function SplitHostPort(hostport: string): (r: Result<(string, string), Error>)
    ensures r.Success? ==> ':' in hostport
    ensures r.Success? ==> '[' !in r.value.0 && ']' !in r.value.0
  {
    match LastIndexOf(hostport, ':')
    case None => Failure(AddrError(hostport, MissingPort))
    case Some(i) =>
      if hostport[0] == '[' then
        match IndexOf(hostport, ']')
        case None => Failure(AddrError(hostport, MissingBracket))
        case Some(end) =>
          if end + 1 == |hostport| then Failure(AddrError(hostport, MissingPort))
          else if end + 1 != i then
            if hostport[end + 1] == ':' then Failure(AddrError(hostport, TooManyColons))
            else Failure(AddrError(hostport, MissingPort))
          else
            assert 1 <= end && ']' !in hostport[..end];
            Finish(hostport, hostport[1..end], 1, end + 1, i)
      else
        var host := hostport[..i];
        if ':' in host then Failure(AddrError(hostport, TooManyColons))
        else Finish(hostport, host, 0, 0, i)
  }

  /** The checks SplitHostPort makes once it has found the host. */
  function Finish(hostport: string, host: string, j: nat, k: nat, i: nat): (r: Result<(string, string), Error>)
    requires j <= |hostport| && k <= |hostport| && i < |hostport|
    requires j + |host| <= |hostport| && host == hostport[j..j + |host|]
    requires k <= j || ']' !in host
    ensures r.Success? ==> '[' !in r.value.0 && ']' !in r.value.0
  {
    if '[' in hostport[j..] then Failure(AddrError(hostport, UnexpectedOpen))
    else if ']' in hostport[k..] then Failure(AddrError(hostport, UnexpectedClose))
    else
      Success((host, hostport[i + 1..]))
  }

  /** A host and port free of brackets and colons: what SplitHostPort splits "host:port" into. */
  lemma SplitHostPortPlain(host: string, port: string)
    requires host != []
    requires ':' !in host && '[' !in host && ']' !in host
    requires ':' !in port && '[' !in port && ']' !in port
    ensures SplitHostPort(host + ":" + port) == Success((host, port))
  {
    var hp := host + ":" + port;
    assert hp[..|host|] == host;
    assert hp[|host| + 1..] == port;
    assert hp[|host|] == ':';
    assert ':' !in hp[|host| + 1..];
    assert LastIndexOf(hp, ':') == Some(|host|);
    assert hp[0] == host[0];
    assert hp[0..] == hp;
    assert '[' !in hp;
    assert ']' !in hp;
  }

  /** A bracketed (IPv6) host keeps its colons: SplitHostPort("[h]:p") is (h, p). */
  lemma SplitHostPortBracketed(host: string, port: string)
    requires '[' !in host && ']' !in host
    requires ':' !in port && '[' !in port && ']' !in port
    ensures SplitHostPort("[" + host + "]:" + port) == Success((host, port))
  {
    var hp := "[" + host + "]:" + port;
    var end := |host| + 1;
    assert hp[end] == ']' && hp[end + 1] == ':';
    assert hp[end + 2..] == port;
    assert ':' !in hp[end + 2..];
    assert LastIndexOf(hp, ':') == Some(end + 1);
    assert hp[..end] == "[" + host;
    assert ']' !in hp[..end];
    assert IndexOf(hp, ']') == Some(end);
    assert hp[1..end] == host;
    assert hp[1..] == host + "]:" + port;
    assert '[' !in hp[1..];
    assert hp[end + 1..] == ":" + port;
    assert ']' !in hp[end + 1..];
  }

  /** An address without a port is refused. */
  lemma SplitHostPortNeedsColon(hostport: string)
    requires ':' !in hostport
    ensures SplitHostPort(hostport) == Failure(AddrError(hostport, MissingPort))
  {
  }
}
