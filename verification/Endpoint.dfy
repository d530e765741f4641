/**
 Where the tenant API server is reached: controlPlaneEndpoint and parseHostnameWithDefault
 (controllers/stewardcontrolplane_controller_cluster_patch.go), and the certificate SAN that
 the TenantControlPlane mutation derives from the same hostname
 (controllers/stewardcontrolplane_controller_tcp.go).
 */
module Endpoint {
  import opened Results
  import opened GoStrings
  import opened HostPort

  const DEFAULT_INGRESS_PORT := 443
  const DEFAULT_GATEWAY_PORT := 6443

  datatype EndpointError =
    | StatusNotSplittable(cause: AddrError)
    | StatusPortNotInteger
    | HostnameNotSplittable(cause: AddrError)
    | HostnamePortNotInteger

  /** The hostnames of the Ingress and Gateway components, when they are set. */
  datatype Exposure = Exposure(ingress: Option<string>, gateway: Option<string>)

  datatype HostAndPort = HostAndPort(host: string, port: int)

  function ParseHostnameWithDefault(hostname: string, defaultPort: int): Result<HostAndPort, EndpointError> {
    var full := if |Split(hostname, ':')| == 1 then hostname + ":" + Itoa(defaultPort) else hostname;
    match SplitHostPort(full)
    case Err(cause) => Err(HostnameNotSplittable(cause))
    case Ok(pair) =>
      match ParseInt(pair.1, 64)
      case None => Err(HostnamePortNotInteger)
      case Some(port) => Ok(HostAndPort(pair.0, port))
  }

  function ControlPlaneEndpoint(exposure: Exposure, statusEndpoint: string): Result<HostAndPort, EndpointError> {
    match SplitHostPort(statusEndpoint)
    case Err(cause) => Err(StatusNotSplittable(cause))
    case Ok(pair) =>
      match ParseInt(pair.1, 16)
      case None => Err(StatusPortNotInteger)
      case Some(port) => Overridden(exposure, HostAndPort(pair.0, port))
  }

  /** The Ingress replaces the status endpoint and the Gateway replaces both; either can fail. */
  function Overridden(exposure: Exposure, status: HostAndPort): Result<HostAndPort, EndpointError> {
    var afterIngress :=
      if exposure.ingress.Some? then ParseHostnameWithDefault(exposure.ingress.value, DEFAULT_INGRESS_PORT)
      else Ok(status);
    if afterIngress.Ok? && exposure.gateway.Some?
    then ParseHostnameWithDefault(exposure.gateway.value, DEFAULT_GATEWAY_PORT)
    else afterIngress
  }

  // ---- hostnames ----

  lemma BareIntegers(n: int)
    ensures Bare(Itoa(n))
  {
    var text := NatText(if n < 0 then -n else n);
    assert forall c <- text :: IsDigit(c);
    assert forall c <- Itoa(n) :: IsDigit(c) || c == '-';
  }

  /** Printing a host and port and parsing them back is the identity, on every 64-bit port. */
  lemma HostnameRoundTrip(host: string, port: int, defaultPort: int)
    requires Bare(host) && InSignedRange(port, 64) && InSignedRange(defaultPort, 64)
    ensures ParseHostnameWithDefault(host + ":" + Itoa(port), defaultPort) == Ok(HostAndPort(host, port))
    ensures ParseHostnameWithDefault(host, defaultPort) == Ok(HostAndPort(host, defaultPort))
  {
    BareIntegers(port);
    BareIntegers(defaultPort);
    var printed := host + ":" + Itoa(port);
    assert printed[|host|] == ':';
    SplitSingle(printed, ':');
    SplitSingle(host, ':');
    PlainSplits(printed, host, Itoa(port));
    PlainSplits(host + ":" + Itoa(defaultPort), host, Itoa(defaultPort));
    ParseIntItoa(port, 64);
    ParseIntItoa(defaultPort, 64);
  }

  lemma LastColon(a: string, b: string)
    requires ':' !in b
    ensures var s := a + [':'] + b; LastIndexByte(s, ':') == |a| && s[..|a|] == a && s[|a| + 1..] == b
  {
    var s := a + [':'] + b;
    assert s[|a|] == ':';
    assert forall j | |a| < j < |s| :: s[j] == b[j - |a| - 1];
  }

  /** The host inside `[host]`, the only colon-free text besides a bare host that parses. */
  predicate Brackets(hostname: string, host: string) {
    Bare(host) && hostname == ['['] + host + [']']
  }

  lemma ColonlessBrackets(hostname: string, text: string, host: string, port: string)
    requires ':' !in hostname && Bare(text)
    ensures BracketForm(hostname + [':'] + text, host, port) <==> port == text && Brackets(hostname, host)
  {
    var full := hostname + [':'] + text;
    LastColon(hostname, text);
    if BracketForm(full, host, port) {
      var inner := ['['] + host + [']'];
      assert full == inner + [':'] + port;
      LastColon(inner, port);
      assert forall c <- host :: c in inner;
    }
    if Brackets(hostname, host) {
      assert full == ['['] + host + [']', ':'] + text;
    }
  }

  lemma ColonlessForms(hostname: string, text: string, host: string, port: string)
    requires ':' !in hostname && Bare(text)
    ensures SplitHostPort(hostname + [':'] + text) == Ok((host, port)) <==>
            (port == text && ((Bare(host) && hostname == host) || Brackets(hostname, host)))
  {
    var full := hostname + [':'] + text;
    SplitHostPortGrammar(full, host, port);
    ColonlessBrackets(hostname, text, host, port);
    LastColon(hostname, text);
    if PlainForm(full, host, port) {
      LastColon(host, port);
    }
  }

  /** A hostname without a colon parses to itself, or to what its brackets enclose, at the default port. */
  lemma ColonlessHostname(hostname: string, defaultPort: int, endpoint: HostAndPort)
    requires ':' !in hostname && InSignedRange(defaultPort, 64)
    ensures ParseHostnameWithDefault(hostname, defaultPort) == Ok(endpoint) <==>
            (&& endpoint.port == defaultPort
             && ((Bare(endpoint.host) && hostname == endpoint.host) || Brackets(hostname, endpoint.host)))
  {
    var text := Itoa(defaultPort);
    SplitSingle(hostname, ':');
    BareIntegers(defaultPort);
    ParseIntItoa(defaultPort, 64);
    ColonlessForms(hostname, text, endpoint.host, text);
    match SplitHostPort(hostname + [':'] + text) {
      case Ok(pair) => ColonlessForms(hostname, text, pair.0, pair.1);
      case Err(_) =>
    }
  }

  /** Exactly the hostnames that parse, and to what: a bare or bracketed host, with a port of 64 bits or with the default one. */
  lemma HostnameExactly(hostname: string, defaultPort: int, endpoint: HostAndPort)
    requires InSignedRange(defaultPort, 64)
    ensures ParseHostnameWithDefault(hostname, defaultPort) == Ok(endpoint) <==>
            if ':' in hostname then
              (exists port :: (PlainForm(hostname, endpoint.host, port) || BracketForm(hostname, endpoint.host, port))
                              && ParseInt(port, 64) == Some(endpoint.port))
            else
              && endpoint.port == defaultPort
              && ((Bare(endpoint.host) && hostname == endpoint.host) || Brackets(hostname, endpoint.host))
  {
    SplitSingle(hostname, ':');
    if ':' !in hostname {
      ColonlessHostname(hostname, defaultPort, endpoint);
    } else {
      forall port ensures SplitHostPort(hostname) == Ok((endpoint.host, port)) <==>
                          PlainForm(hostname, endpoint.host, port) || BracketForm(hostname, endpoint.host, port)
      {
        SplitHostPortGrammar(hostname, endpoint.host, port);
      }
    }
  }

  /** A bracketed host and a port, printed and parsed back. */
  lemma BracketedRoundTrip(host: string, port: int, defaultPort: int)
    requires Unbracketed(host) && InSignedRange(port, 64)
    ensures ParseHostnameWithDefault("[" + host + "]:" + Itoa(port), defaultPort) == Ok(HostAndPort(host, port))
  {
    var printed := "[" + host + "]:" + Itoa(port);
    BareIntegers(port);
    ParseIntItoa(port, 64);
    assert printed == ['['] + host + [']', ':'] + Itoa(port);
    BracketScan(printed, host, Itoa(port));
    SplitSingle(printed, ':');
    BracketSplits(printed, host, Itoa(port));
  }

  /** A hostname with two colons and no bracket in front, such as an IPv6 address, does not parse. */
  lemma SeveralColonsRefused(hostname: string, i: nat, j: nat, defaultPort: int)
    requires i < j < |hostname| && hostname[i] == ':' && hostname[j] == ':' && hostname[0] != '['
    ensures ParseHostnameWithDefault(hostname, defaultPort) == Err(HostnameNotSplittable(TooManyColons))
  {
    SplitSingle(hostname, ':');
    assert hostname[i] in hostname;
    var last := LastIndexByte(hostname, ':');
    assert j <= last && hostname[..last][i] == ':';
  }

  // ---- the whole derivation ----

  /**
   When the derivation succeeds, and with what: the status endpoint must split and carry a
   signed 16-bit port even where an override follows, an Ingress hostname must parse even
   where a Gateway follows, and the last of the three that is set wins.
   */
  lemma EndpointPrecedence(exposure: Exposure, statusEndpoint: string, endpoint: HostAndPort)
    ensures ControlPlaneEndpoint(exposure, statusEndpoint) == Ok(endpoint) <==>
            (exists host, port | PlainForm(statusEndpoint, host, port) || BracketForm(statusEndpoint, host, port) ::
               && ParseInt(port, 16).Some?
               && (exposure.ingress.Some? ==> ParseHostnameWithDefault(exposure.ingress.value, DEFAULT_INGRESS_PORT).Ok?)
               && (if exposure.gateway.Some? then ParseHostnameWithDefault(exposure.gateway.value, DEFAULT_GATEWAY_PORT)
                   else if exposure.ingress.Some? then ParseHostnameWithDefault(exposure.ingress.value, DEFAULT_INGRESS_PORT)
                   else Ok(HostAndPort(host, ParseInt(port, 16).value))) == Ok(endpoint))
  {
    forall host, port | PlainForm(statusEndpoint, host, port) || BracketForm(statusEndpoint, host, port)
      ensures SplitHostPort(statusEndpoint) == Ok((host, port))
    {
      SplitHostPortGrammar(statusEndpoint, host, port);
    }
    if SplitHostPort(statusEndpoint).Ok? {
      var (host, port) := SplitHostPort(statusEndpoint).value;
      SplitHostPortGrammar(statusEndpoint, host, port);
    }
  }

  /** A status endpoint printed from a port is accepted exactly in the signed 16-bit range. */
  lemma StatusPortRange(host: string, port: int)
    requires Bare(host)
    ensures ControlPlaneEndpoint(Exposure(None, None), host + ":" + Itoa(port)) ==
            if -32768 <= port < 32768 then Ok(HostAndPort(host, port)) else Err(StatusPortNotInteger)
  {
    BareIntegers(port);
    PlainSplits(host + ":" + Itoa(port), host, Itoa(port));
    ParseIntItoa(port, 16);
    PortWidths();
  }

  lemma BareHostname(host: string, defaultPort: int)
    requires Bare(host) && InSignedRange(defaultPort, 64)
    ensures ParseHostnameWithDefault(host, defaultPort) == Ok(HostAndPort(host, defaultPort))
  {
    HostnameRoundTrip(host, defaultPort, defaultPort);
  }

  lemma DefaultPortsFit()
    ensures InSignedRange(DEFAULT_INGRESS_PORT, 64) && InSignedRange(DEFAULT_GATEWAY_PORT, 64)
  {
    PortWidths();
  }

  /** Bare hostnames get the ports 443 and 6443, and a Gateway hides an Ingress. */
  lemma DefaultPorts(ingress: string, gateway: string, status: HostAndPort)
    requires Bare(ingress) && Bare(gateway)
    ensures Overridden(Exposure(Some(ingress), None), status) == Ok(HostAndPort(ingress, 443))
    ensures Overridden(Exposure(None, Some(gateway)), status) == Ok(HostAndPort(gateway, 6443))
    ensures Overridden(Exposure(Some(ingress), Some(gateway)), status) == Ok(HostAndPort(gateway, 6443))
  {
    DefaultPortsFit();
    BareHostname(ingress, DEFAULT_INGRESS_PORT);
    BareHostname(gateway, DEFAULT_GATEWAY_PORT);
  }

  // ---- certificate SANs ----

  /** The SAN added for an exposed hostname: its host part when it splits, otherwise all of it. */
  function SanEntry(hostname: string): string {
    match SplitHostPort(hostname)
    case Ok(pair) => pair.0
    case Err(_) => hostname
  }

  function OptionalSan(hostname: Option<string>): seq<string> {
    if hostname.Some? then [SanEntry(hostname.value)] else []
  }

  function CertSans(userSans: seq<string>, exposure: Exposure): seq<string> {
    userSans + OptionalSan(exposure.ingress) + OptionalSan(exposure.gateway)
  }

  lemma CertSansMembers(userSans: seq<string>, exposure: Exposure, san: string)
    ensures san in CertSans(userSans, exposure) <==>
            || san in userSans
            || (exposure.ingress.Some? && san == SanEntry(exposure.ingress.value))
            || (exposure.gateway.Some? && san == SanEntry(exposure.gateway.value))
  {
  }

  /** A hostname written as an IP literal without a port, such as "[host]". */
  predicate BracketedWithoutPort(hostname: string) {
    hostname != [] && hostname[0] == '[' && ':' !in hostname
  }

  /**
   The certificate side and the endpoint side agree on the host of a hostname exactly when it
   is not a bracketed literal without a port: there the endpoint drops the brackets, and the
   SAN keeps them.
   */
  lemma SanAgreesWithEndpoint(hostname: string, defaultPort: int)
    requires InSignedRange(defaultPort, 64)
    ensures ParseHostnameWithDefault(hostname, defaultPort).Ok? ==>
              (SanEntry(hostname) == ParseHostnameWithDefault(hostname, defaultPort).value.host <==>
               !BracketedWithoutPort(hostname))
  {
    SplitSingle(hostname, ':');
    if ':' !in hostname && ParseHostnameWithDefault(hostname, defaultPort).Ok? {
      var endpoint := ParseHostnameWithDefault(hostname, defaultPort).value;
      ColonlessHostname(hostname, defaultPort, endpoint);
      assert endpoint.host != [] ==> endpoint.host[0] in endpoint.host;
      assert |['['] + endpoint.host + [']']| == |endpoint.host| + 2;
    }
  }

  ghost predicate EnclosesHostPort(hostname: string) {
    exists host, port :: BracketForm(hostname, host, port) && Splittable(host)
  }

  /**
   Exactly which hostnames yield a SAN that is itself splittable: those whose brackets
   enclose a host and a port, such as "[a:1]:443".
   */
  lemma SanSplittableIff(hostname: string)
    ensures Splittable(SanEntry(hostname)) <==> EnclosesHostPort(hostname)
  {
    match SplitHostPort(hostname) {
      case Ok(pair) =>
        SplitHostPortGrammar(hostname, pair.0, pair.1);
        if PlainForm(hostname, pair.0, pair.1) {
          assert !Splittable(pair.0);
        }
      case Err(_) =>
    }
    forall host, port | BracketForm(hostname, host, port) ensures SanEntry(hostname) == host {
      BracketSplits(hostname, host, port);
    }
  }

  /** The hostname the endpoint is derived from, when one is exposed. */
  function EffectiveHostname(exposure: Exposure): Option<string> {
    if exposure.gateway.Some? then exposure.gateway else exposure.ingress
  }

  lemma EffectiveHostnameParses(exposure: Exposure, statusEndpoint: string)
    requires EffectiveHostname(exposure).Some?
    ensures var port := if exposure.gateway.Some? then DEFAULT_GATEWAY_PORT else DEFAULT_INGRESS_PORT;
            && InSignedRange(port, 64)
            && (ControlPlaneEndpoint(exposure, statusEndpoint).Ok? ==>
                  ControlPlaneEndpoint(exposure, statusEndpoint)
                    == ParseHostnameWithDefault(EffectiveHostname(exposure).value, port))
  {
    DefaultPortsFit();
  }

  /**
   SAN coverage. With an Ingress or a Gateway whose hostname is not a bracketed literal
   without a port, the derived host is among the certificate's SANs.
   */
  lemma HostCovered(userSans: seq<string>, exposure: Exposure, statusEndpoint: string)
    requires EffectiveHostname(exposure).Some? && !BracketedWithoutPort(EffectiveHostname(exposure).value)
    ensures ControlPlaneEndpoint(exposure, statusEndpoint).Ok? ==>
              ControlPlaneEndpoint(exposure, statusEndpoint).value.host in CertSans(userSans, exposure)
  {
    EffectiveHostnameParses(exposure, statusEndpoint);
    var hostname := EffectiveHostname(exposure).value;
    SanAgreesWithEndpoint(hostname, if exposure.gateway.Some? then DEFAULT_GATEWAY_PORT else DEFAULT_INGRESS_PORT);
    assert SanEntry(hostname) in OptionalSan(EffectiveHostname(exposure)) by {
      assert OptionalSan(EffectiveHostname(exposure))[0] == SanEntry(hostname);
    }
  }

  /**
   The bracketed literals without a port are the excluded family: only an entry that comes from
   elsewhere, from the user's list or from an Ingress beside the Gateway, can name the host.
   */
  lemma BracketedHostNotCovered(userSans: seq<string>, exposure: Exposure, statusEndpoint: string)
    requires EffectiveHostname(exposure).Some? && BracketedWithoutPort(EffectiveHostname(exposure).value)
    ensures ControlPlaneEndpoint(exposure, statusEndpoint).Ok? ==>
              var host := ControlPlaneEndpoint(exposure, statusEndpoint).value.host;
              (host in CertSans(userSans, exposure) <==>
               host in userSans
               || (exposure.ingress.Some? && exposure.gateway.Some? && host == SanEntry(exposure.ingress.value)))
  {
    EffectiveHostnameParses(exposure, statusEndpoint);
    var hostname := EffectiveHostname(exposure).value;
    SanAgreesWithEndpoint(hostname, if exposure.gateway.Some? then DEFAULT_GATEWAY_PORT else DEFAULT_INGRESS_PORT);
    if ControlPlaneEndpoint(exposure, statusEndpoint).Ok? {
      CertSansMembers(userSans, exposure, ControlPlaneEndpoint(exposure, statusEndpoint).value.host);
    }
  }

  /** An input of the first excluded family: the endpoint of "[name]" is "name", which its SAN is not. */
  lemma BracketsExample()
    ensures ParseHostnameWithDefault("[name]", 443) == Ok(HostAndPort("name", 443))
    ensures SanEntry("[name]") == "[name]"
  {
    DefaultPortsFit();
    assert Brackets("[name]", "name");
    ColonlessHostname("[name]", 443, HostAndPort("name", 443));
    assert LastIndexByte("[name]", ':') == -1;
  }

  /** An input of the second: the SAN of "[a:1]:443" is itself a host and a port. */
  lemma EnclosedPortExample()
    ensures SanEntry("[a:1]:443") == "a:1" && SplitHostPort("a:1") == Ok(("a", "1"))
  {
    PlainSplits("a:1", "a", "1");
    assert BracketForm("[a:1]:443", "a:1", "443") by {
      assert "[a:1]:443" == ['['] + "a:1" + [']', ':'] + "443";
    }
    BracketSplits("[a:1]:443", "a:1", "443");
  }

  /** No SAN can be mistaken for a host and port, exactly when the user's entries and the exposed hostnames allow it. */
  lemma NoSanSplittable(userSans: seq<string>, exposure: Exposure)
    ensures (forall s <- CertSans(userSans, exposure) :: !Splittable(s)) <==>
            (&& (forall s <- userSans :: !Splittable(s))
             && (exposure.ingress.Some? ==> !EnclosesHostPort(exposure.ingress.value))
             && (exposure.gateway.Some? ==> !EnclosesHostPort(exposure.gateway.value)))
  {
    var sans := CertSans(userSans, exposure);
    if exposure.ingress.Some? {
      SanSplittableIff(exposure.ingress.value);
      assert sans[|userSans|] == SanEntry(exposure.ingress.value);
    }
    if exposure.gateway.Some? {
      SanSplittableIff(exposure.gateway.value);
      assert sans[|sans| - 1] == SanEntry(exposure.gateway.value);
    }
    assert forall s <- userSans :: s in sans;
  }

  /** A hostname that does not start with a bracket is in neither excluded family. */
  lemma UnbracketedHostname(hostname: string)
    requires hostname == [] || hostname[0] != '['
    ensures !BracketedWithoutPort(hostname) && !EnclosesHostPort(hostname)
  {
    assert forall host, port :: BracketForm(hostname, host, port) ==> hostname[0] == '[';
  }
}
