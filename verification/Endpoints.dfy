/**
 How URI prefixes of grants are matched: network endpoints by component, anything
 else as a string prefix. `lower` is the lower-casing of host names.
 */
module Endpoints {
  import opened Common
  import opened Text
  import opened Authority
  import W = WireName

  datatype Endpoint = Endpoint(scheme: string, host: string, port: string)

  predicate PortChar(c: char) {
    W.Digit(c) || c == ',' || c == ' '
  }

  predicate PortOk(port: string) {
    port != [] && (port == "*" || forall c | c in port :: PortChar(c))
  }

  /** Host and port: the port is after the last colon. */
  function ParseRest(scheme: string, rest: string, lower: string -> string): Option<Endpoint> {
    var k := W.LastColon(rest, |rest|);
    if k.None? || !PortOk(rest[k.value + 1..]) then None
    else
      var host := W.StripDot(lower(rest[..k.value]));
      if host == [] then None else Some(Endpoint(scheme, host, rest[k.value + 1..]))
  }

  /** `NetworkEndpoint::parse`. */
  function Parse(uri: string, lower: string -> string): Option<Endpoint> {
    if "tcp://" <= uri then ParseRest("tcp", uri[6..], lower)
    else if "udp://" <= uri then ParseRest("udp", uri[6..], lower)
    else None
  }

  predicate EndsWith(s: string, suffix: string) {
    |suffix| <= |s| && s[|s| - |suffix|..] == suffix
  }

  /** Exact, or a wildcard at a label boundary. */
  predicate HostMatches(grant: string, host: string) {
    grant == host
    || (&& "*." <= grant && EndsWith(host, grant[2..]) && |host| > |grant| - 2
        && host[|host| - (|grant| - 2) - 1] == '.')
  }

  predicate PortMatches(grant: string, port: string) {
    grant == "*" || exists p | p in Split(grant, ',') :: W.Trim(p) == port
  }

  predicate EndpointMatches(grant: Endpoint, e: Endpoint) {
    grant.scheme == e.scheme && HostMatches(grant.host, e.host) && PortMatches(grant.port, e.port)
  }

  predicate PrefixMatches(prefix: string, uri: string, lower: string -> string) {
    var grant, e := Parse(prefix, lower), Parse(uri, lower);
    if grant.Some? && e.Some? then EndpointMatches(grant.value, e.value) else prefix <= uri
  }

  /** The matcher of the ABI. */
  function Matcher(lower: string -> string): (string, string) -> bool {
    (prefix: string, uri: string) => PrefixMatches(prefix, uri, lower)
  }

  // ---------------------------------------------------------------------
  // What is parsed and matched
  // ---------------------------------------------------------------------

  predicate Scheme(s: string) {
    s == "tcp" || s == "udp"
  }

  /** The URI of an endpoint. */
  function Uri(scheme: string, host: string, port: string): string {
    scheme + "://" + (host + ":" + port)
  }

  /** A URI of scheme, host and port without a colon parses to just these, if host and port are in order. */
  lemma ParseExactly(scheme: string, host: string, port: string, lower: string -> string)
    requires Scheme(scheme) && ':' !in port
    ensures var name := W.StripDot(lower(host));
            Parse(Uri(scheme, host, port), lower) ==
              if PortOk(port) && name != [] then Some(Endpoint(scheme, name, port)) else None
  {
    var rest := host + ":" + port;
    assert Uri(scheme, host, port)[6..] == rest;
    assert scheme == "udp" ==> Uri(scheme, host, port)[0] == 'u';
    W.LastIs(rest, |host|);
    assert rest[..|host|] == host && rest[|host| + 1..] == port;
  }

  /** A host matches exactly the grant's host, or any name below the domain of a wildcard. */
  lemma HostExactly(grant: string, host: string)
    ensures HostMatches(grant, host) <==>
            grant == host || exists x, domain :: grant == "*." + domain && host == x + "." + domain
  {
    if HostMatches(grant, host) && grant != host {
      var domain := grant[2..];
      var x := host[..|host| - |domain| - 1];
      assert grant == "*." + domain && host == x + "." + domain;
    }
    if x, domain :| grant == "*." + domain && host == x + "." + domain {
      assert grant[..2] == "*." && grant[2..] == domain && host[|host| - |domain|..] == domain;
    }
  }

  // ---------------------------------------------------------------------
  // Longer prefixes can match more
  // ---------------------------------------------------------------------

  function Pieces(port: string): seq<string> {
    Split(port, ',')
  }

  /** A port of a list, as a context may name it. */
  predicate Listed(port: string, c: string) {
    c != [] && exists p | p in Pieces(port) :: W.Trim(p) == c
  }

  /** Whatever the longer prefix matches, the shorter one matches. */
  ghost predicate Narrows(prefix: string, longer: string, lower: string -> string) {
    forall uri :: PrefixMatches(longer, uri, lower) ==> PrefixMatches(prefix, uri, lower)
  }

  lemma MatchExactly(scheme: string, host: string, port: string, c: string, lower: string -> string)
    requires Scheme(scheme) && W.StripDot(lower(host)) != []
    requires PortOk(port) && port != "*" && ':' !in port && PortOk(c) && ':' !in c
    ensures PrefixMatches(Uri(scheme, host, port), Uri(scheme, host, c), lower) <==> Listed(port, c)
  {
    ParseExactly(scheme, host, port, lower);
    ParseExactly(scheme, host, c, lower);
  }

  lemma {:induction false} TrimStartWithin(s: string)
    ensures forall c | c in W.TrimStart(s) :: c in s
  {
    if s != [] && W.Space(s[0]) {
      TrimStartWithin(s[1..]);
    }
  }

  lemma TrimWithin(s: string)
    ensures forall c | c in W.Trim(s) :: c in s
  {
    TrimStartWithin(s);
    assert W.Trim(s) <= W.TrimStart(s);
  }

  /** What a list names can be the port of a context. */
  lemma ListedIsPort(port: string, c: string)
    requires PortOk(port) && port != "*" && Listed(port, c)
    ensures PortOk(c) && ':' !in c
  {
    var p :| p in Pieces(port) && W.Trim(p) == c;
    SplitFree(port, ',', p);
    TrimWithin(p);
    assert forall x | x in c :: PortChar(x);
  }

  /**
   Among endpoints, the longer prefix is narrower if and only if the ports it
   lists are listed by the shorter one already: more digits or more entries name
   other ports.
   */
  lemma PortsNarrow(scheme: string, host: string, port: string, more: string, lower: string -> string)
    requires Scheme(scheme) && W.StripDot(lower(host)) != []
    requires PortOk(port) && port != "*" && ':' !in port && PortOk(port + more) && ':' !in more
    ensures var prefix := Uri(scheme, host, port);
            Narrows(prefix, prefix + more, lower) <==> forall c | Listed(port + more, c) :: Listed(port, c)
  {
    var prefix := Uri(scheme, host, port);
    assert prefix + more == Uri(scheme, host, port + more);
    assert port + more != "*";
    if Narrows(prefix, prefix + more, lower) {
      forall c | Listed(port + more, c) ensures Listed(port, c) {
        ListedIsPort(port + more, c);
        MatchExactly(scheme, host, port + more, c, lower);
        MatchExactly(scheme, host, port, c, lower);
      }
    }
    if forall c | Listed(port + more, c) :: Listed(port, c) {
      forall uri | PrefixMatches(prefix + more, uri, lower) ensures PrefixMatches(prefix, uri, lower) {
        ParseExactly(scheme, host, port, lower);
        ParseExactly(scheme, host, port + more, lower);
        var e := Parse(uri, lower);
        if e.Some? {
          ParsedPort(uri, lower);
          assert Listed(port + more, e.value.port);
        }
      }
    }
  }

  lemma ParsedPort(uri: string, lower: string -> string)
    requires Parse(uri, lower).Some?
    ensures Parse(uri, lower).value.port != []
  {
  }

  /** A port of digits names itself only. */
  lemma SinglePort(port: string, c: string)
    requires port != [] && forall x | x in port :: W.Digit(x)
    ensures PortOk(port) && (Listed(port, c) <==> c == port)
  {
    assert ',' !in port && W.Digit(port[0]) && W.Digit(port[|port| - 1]);
    CutNone(port, ',');
    assert Pieces(port) == [port];
    assert W.Trim(port) == port;
  }

  /** With one more digit, a single port is another port. */
  lemma MoreDigits(host: string, port: string, digit: char, lower: string -> string)
    requires W.StripDot(lower(host)) != [] && port != [] && (forall x | x in port :: W.Digit(x)) && W.Digit(digit)
    ensures var prefix, matches := Uri("tcp", host, port), Matcher(lower);
            matches(prefix + [digit], prefix + [digit]) && !matches(prefix, prefix + [digit])
  {
    var longer := port + [digit];
    SinglePort(port, longer);
    SinglePort(longer, longer);
    assert port[0] in port && longer[0] == port[0] != '*' && ':' !in longer && ':' !in port;
    assert Uri("tcp", host, port) + [digit] == Uri("tcp", host, longer);
    MatchExactly("tcp", host, longer, longer, lower);
    MatchExactly("tcp", host, port, longer, lower);
  }

  lemma NotMonotone(host: string, port: string, digit: char, lower: string -> string)
    requires W.StripDot(lower(host)) != [] && port != [] && (forall x | x in port :: W.Digit(x)) && W.Digit(digit)
    ensures !Monotone(Matcher(lower))
  {
    MoreDigits(host, port, digit, lower);
    var prefix := Uri("tcp", host, port);
    Broken(Matcher(lower), prefix, [digit], prefix + [digit]);
  }

  lemma Broken(matches: (string, string) -> bool, prefix: string, more: string, uri: string)
    requires matches(prefix + more, uri) && !matches(prefix, uri)
    ensures !Monotone(matches)
  {
  }

  /**
   So coverage of grants over network endpoints is not containment: a grant for
   port 1 covers a grant for port 12.
   */
  lemma EndpointsNotContained(lower: string -> string)
    requires lower("a") == "a"
    ensures !Monotone(Matcher(lower)) && !PrefixesContain(Matcher(lower))
  {
    NotMonotone("a", "1", '2', lower);
    PrefixesExactly(Matcher(lower));
  }
}
