/** Helpers shared by the service: service addresses and readings built from driver values. */
module Common {
  import opened Ints
  import opened Wrappers
  import Models
  import CommandValues

  const HttpScheme: string := "http://"
  const Colon: string := ":"

  /** `BuildAddr`: the scheme, the host, a colon and the port, written into one buffer in that order. */
  function BuildAddr(host: string, port: string): (addr: string)
    ensures |addr| == |HttpScheme| + |host| + 1 + |port|
    ensures addr[..|HttpScheme|] == HttpScheme
    ensures addr[|HttpScheme|..|HttpScheme| + |host|] == host
    ensures addr[|HttpScheme| + |host|] == ':'
    ensures addr[|HttpScheme| + |host| + 1..] == port
  {
    HttpScheme + host + Colon + port
  }

  /** The index of the first colon in s, if any. */
  function FirstColon(s: string): (r: Option<nat>)
    ensures r.Some? ==> r.value < |s| && s[r.value] == ':' && ':' !in s[..r.value]
    ensures r.None? ==> ':' !in s
  {
    if s == [] then None
    else if s[0] == ':' then Some(0)
    else match FirstColon(s[1..])
      case None => None
      case Some(i) => Some(i + 1)
  }

  /** Reads an address back into host and port: the inverse of `BuildAddr` for hosts without a colon. */
  function SplitAddr(addr: string): Option<(string, string)> {
    if |addr| < |HttpScheme| || addr[..|HttpScheme|] != HttpScheme then None
    else
      var rest := addr[|HttpScheme|..];
      match FirstColon(rest)
      case None => None
      case Some(i) => Some((rest[..i], rest[i + 1..]))
  }

  lemma BuildAddrSplit(host: string, port: string)
    requires ':' !in host
    ensures SplitAddr(BuildAddr(host, port)) == Some((host, port))
  {
    var addr := BuildAddr(host, port);
    var rest := addr[|HttpScheme|..];
    assert addr[..|HttpScheme|] == HttpScheme;
    assert rest == host + Colon + port;
    FirstColonAfter(host, port);
    assert rest[..|host|] == host && rest[|host| + 1..] == port;
  }

  /** In host ++ ":" ++ port with no colon in the host, the first colon follows the host. */
  lemma {:induction false} FirstColonAfter(host: string, port: string)
    requires ':' !in host
    ensures FirstColon(host + Colon + port) == Some(|host|)
  {
    if host != [] {
      assert (host + Colon + port)[1..] == host[1..] + Colon + port;
      FirstColonAfter(host[1..], port);
    }
  }

  /** Distinct colon-free hosts, or distinct ports, give distinct addresses. */
  lemma BuildAddrInjective(h1: string, p1: string, h2: string, p2: string)
    requires ':' !in h1 && ':' !in h2
    requires BuildAddr(h1, p1) == BuildAddr(h2, p2)
    ensures h1 == h2 && p1 == p2
  {
    BuildAddrSplit(h1, p1);
    BuildAddrSplit(h2, p2);
  }

  lemma BuildAddrExample()
    ensures BuildAddr("test.xyz", "8000") == "http://test.xyz:8000"
  {
  }

  /**
   * `CommandValueToReading`: a reading named after the parameter of the
   * operation the value answers, for the named device, holding the value's
   * rendering, stamped with the value's origin when positive and with the
   * clock reading now otherwise.
   */
  function CommandValueToReading(cv: CommandValues.CommandValue, ro: Models.ResourceOperation, devName: string, now: int64): (r: Models.Reading)
    ensures r.name == ro.parameter && r.device == devName
    ensures r.value == CommandValues.ToString(cv)
    ensures r.origin == if cv.origin > 0 then cv.origin else now
  {
    Models.Reading(ro.parameter, devName, CommandValues.ToString(cv), if cv.origin > 0 then cv.origin else now)
  }

  /** It is the value's own `Reading` with the operation's parameter as the name. */
  lemma CommandValueToReadingIsReading(cv: CommandValues.CommandValue, ro: Models.ResourceOperation, devName: string, now: int64)
    ensures CommandValueToReading(cv, ro, devName, now) == CommandValues.Reading(cv, devName, ro.parameter, now)
  {
  }
}
