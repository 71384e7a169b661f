/**
 External wire names as projections of internal paths: a service's wire name is
 its path reversed and joined with dots, under the tenant's own label or a
 domain registered for the tenant.
 */
module WireName {
  import opened Common
  import opened Text

  // ---------------------------------------------------------------------
  // Labels
  // ---------------------------------------------------------------------

  const CLASS_SEGMENTS := {
    "region", "mapping", "signal", "listener", "stream", "socket", "log", "blob", "proc", "activity",
    "metering", "guest-log", "queue", "cpu"
  }

  predicate Digit(c: char) {
    '0' <= c <= '9'
  }

  predicate LabelChar(c: char) {
    'a' <= c <= 'z' || Digit(c) || c == '-'
  }

  predicate DnsSafe(s: string) {
    && 0 < |s| <= 63 && s[0] != '-' && s[|s| - 1] != '-'
    && forall c | c in s :: LabelChar(c)
  }

  predicate AllSafe(labels: seq<string>) {
    forall l | l in labels :: DnsSafe(l)
  }

  /** The host-name labels of section 2.3.1 of RFC 1035, in lower case and free to start with a digit. */
  lemma SafeExactly(s: string)
    ensures DnsSafe(s) <==>
            && 1 <= |s| <= 63 && s[0] != '-' && s[|s| - 1] != '-'
            && forall i | 0 <= i < |s| :: InAlphabet(s[i] as int)
  {
    if forall i | 0 <= i < |s| :: InAlphabet(s[i] as int) {
      forall c | c in s ensures LabelChar(c) {
        var i :| 0 <= i < |s| && s[i] == c;
        assert InAlphabet(s[i] as int);
      }
    }
    if forall c | c in s :: LabelChar(c) {
      forall i | 0 <= i < |s| ensures InAlphabet(s[i] as int) {
        assert s[i] in s;
      }
    }
  }

  /** The code points of small letters, digits and the hyphen. */
  predicate InAlphabet(n: int) {
    0x61 <= n <= 0x7A || 0x30 <= n <= 0x39 || n == 0x2D
  }

  // ---------------------------------------------------------------------
  // Host normalisation
  // ---------------------------------------------------------------------

  /** White space of Unicode. */
  predicate Space(c: char) {
    '\t' <= c <= '\r' || c == ' ' || c == '\U{85}' || c == '\U{A0}' || c == '\U{1680}'
    || '\U{2000}' <= c <= '\U{200A}' || c == '\U{2028}' || c == '\U{2029}' || c == '\U{202F}'
    || c == '\U{205F}' || c == '\U{3000}'
  }

  /** The code points with the property White_Space of Unicode, one by one. */
  lemma SpaceExactly(c: char)
    ensures Space(c) <==>
            c in ['\U{9}', '\U{A}', '\U{B}', '\U{C}', '\U{D}', '\U{20}', '\U{85}', '\U{A0}', '\U{1680}',
                  '\U{2000}', '\U{2001}', '\U{2002}', '\U{2003}', '\U{2004}', '\U{2005}', '\U{2006}', '\U{2007}',
                  '\U{2008}', '\U{2009}', '\U{200A}', '\U{2028}', '\U{2029}', '\U{202F}', '\U{205F}', '\U{3000}']
  {
  }

  function TrimStart(s: string): (r: string)
    ensures |r| <= |s| && (r != [] ==> !Space(r[0]))
    ensures s == [] || !Space(s[0]) ==> r == s
    ensures r != [] ==> r[|r| - 1] == s[|s| - 1]
  {
    if s != [] && Space(s[0]) then TrimStart(s[1..]) else s
  }

  function TrimEnd(s: string): (r: string)
    ensures r <= s && (r != [] ==> !Space(r[|r| - 1]))
    ensures s == [] || !Space(s[|s| - 1]) ==> r == s
  {
    if s != [] && Space(s[|s| - 1]) then TrimEnd(s[..|s| - 1]) else s
  }

  function Trim(s: string): string {
    TrimEnd(TrimStart(s))
  }

  function Lower(c: char): char {
    if 'A' <= c <= 'Z' then c - 'A' + 'a' else c
  }

  function LowerAll(s: string): (r: string)
    ensures |r| == |s| && forall i | 0 <= i < |s| :: r[i] == Lower(s[i])
  {
    seq(|s|, i requires 0 <= i < |s| => Lower(s[i]))
  }

  function StripDot(s: string): string {
    if s != [] && s[|s| - 1] == '.' then s[..|s| - 1] else s
  }

  /** Where the last colon before `n` is. */
  function LastColon(s: string, n: nat): (k: Option<nat>)
    requires n <= |s|
    ensures k.Some? ==> k.value < n && s[k.value] == ':' && forall j | k.value < j < n :: s[j] != ':'
    ensures k.None? ==> forall j | 0 <= j < n :: s[j] != ':'
  {
    if n == 0 then None
    else if s[n - 1] == ':' then Some(n - 1)
    else LastColon(s, n - 1)
  }

  predicate DigitsFrom(s: string, i: nat) {
    forall j | i <= j < |s| :: Digit(s[j])
  }

  /** A numeric port, possibly empty, follows the colon at `k`. */
  predicate PortAt(s: string, k: Option<nat>) {
    k.Some? && DigitsFrom(s, k.value + 1)
  }

  /** The name ends in a port after a non-empty host. */
  predicate HasPort(s: string) {
    var k := LastColon(s, |s|);
    PortAt(s, k) && k.value > 0
  }

  function StripPort(s: string): string {
    if HasPort(s) then s[..LastColon(s, |s|).value] else s
  }

  function NormalizeHost(host: string): string {
    StripPort(StripDot(LowerAll(Trim(host))))
  }

  /** A host that normalisation leaves alone. */
  predicate Plain(s: string) {
    && s != [] && !Space(s[0]) && !Space(s[|s| - 1]) && s[|s| - 1] != '.' && !HasPort(s)
    && forall i | 0 <= i < |s| :: Lower(s[i]) == s[i]
  }

  predicate AllSpace(s: string) {
    forall i | 0 <= i < |s| :: Space(s[i])
  }

  /** Trimming takes off exactly the white space around a text that neither starts nor ends with it. */
  lemma {:induction false} TrimExactly(a: string, core: string, b: string)
    requires AllSpace(a) && AllSpace(b) && core != [] && !Space(core[0]) && !Space(core[|core| - 1])
    ensures Trim(a + core + b) == core
    decreases |a| + |b|
  {
    var s := a + core + b;
    if a != [] {
      assert s[1..] == a[1..] + core + b;
      TrimExactly(a[1..], core, b);
    } else {
      assert s == core + b && TrimStart(s) == s;
      TrimTail(core, b);
    }
  }

  lemma {:induction false} TrimTail(core: string, b: string)
    requires AllSpace(b) && core != [] && !Space(core[|core| - 1])
    ensures TrimEnd(core + b) == core
    decreases |b|
  {
    if b == [] {
      assert core + b == core;
    } else {
      assert (core + b)[..|core + b| - 1] == core + b[..|b| - 1];
      TrimTail(core, b[..|b| - 1]);
    }
  }

  /** A port is what follows the last colon, if it is all digits and the colon is not in front. */
  lemma PortExactly(host: string, port: string)
    requires ':' !in port
    ensures StripPort(port) == port
    ensures var s := host + ":" + port;
            StripPort(s) == if host != [] && (forall c | c in port :: Digit(c)) then host else s
  {
    var s := host + ":" + port;
    LastIs(s, |host|);
    assert forall i | |host| + 1 <= i < |s| :: s[i] == port[i - |host| - 1];
    assert LastColon(port, |port|).None?;
    if DigitsFrom(s, |host| + 1) {
      forall c | c in port ensures Digit(c) {
        var i :| 0 <= i < |port| && port[i] == c;
        assert s[|host| + 1 + i] == c;
      }
    }
  }

  /** The same ASCII letter, once in upper and once in lower case. */
  predicate CasePair(upper: char, lower: char) {
    'A' <= upper <= 'Z' && lower as int == upper as int + 32
  }

  predicate SameButCase(a: string, b: string) {
    |a| == |b| && forall i | 0 <= i < |a| :: a[i] == b[i] || CasePair(a[i], b[i]) || CasePair(b[i], a[i])
  }

  lemma {:induction false} TrimStartCase(a: string, b: string)
    requires SameButCase(a, b)
    ensures SameButCase(TrimStart(a), TrimStart(b))
  {
    if a != [] && Space(a[0]) {
      TrimStartCase(a[1..], b[1..]);
    }
  }

  lemma {:induction false} TrimEndCase(a: string, b: string)
    requires SameButCase(a, b)
    ensures SameButCase(TrimEnd(a), TrimEnd(b))
  {
    if a != [] && Space(a[|a| - 1]) {
      TrimEndCase(a[..|a| - 1], b[..|b| - 1]);
    }
  }

  /** Hosts that differ in the case of ASCII letters only are normalised alike. */
  lemma CaseBlind(a: string, b: string)
    requires SameButCase(a, b)
    ensures NormalizeHost(a) == NormalizeHost(b)
  {
    TrimStartCase(a, b);
    TrimEndCase(TrimStart(a), TrimStart(b));
    assert LowerAll(Trim(a)) == LowerAll(Trim(b));
  }

  /** Exactly the plain hosts are unchanged by normalisation. */
  lemma NormalExactly(s: string)
    requires s != []
    ensures NormalizeHost(s) == s <==> Plain(s)
  {
    var low := LowerAll(Trim(s));
    if NormalizeHost(s) == s {
      assert |StripPort(StripDot(low))| <= |StripDot(low)| <= |low| == |Trim(s)| <= |TrimStart(s)| <= |s|;
      assert Trim(s) == TrimStart(s);
      assert low == s;
    }
    if Plain(s) {
      assert LowerAll(s) == s;
    }
  }

  /** No table key starts with white space. */
  lemma KeyStart(host: string)
    ensures var d := NormalizeHost(host); d != [] ==> !Space(d[0])
  {
    var t := Trim(host);
    assert t != [] ==> t[0] == TrimStart(host)[0];
  }

  lemma LastIs(s: string, k: nat)
    requires k < |s| && s[k] == ':' && forall j | k < j < |s| :: s[j] != ':'
    ensures LastColon(s, |s|) == Some(k)
  {
  }

  /** After a label, the colon that counts is the domain's own. */
  lemma ColonIn(p: string, d: string)
    requires ':' !in p
    ensures var k, m := LastColon(d, |d|), LastColon(p + "." + d, |p + "." + d|);
            && (k.None? ==> m.None?) && (k.Some? ==> m == Some(|p| + 1 + k.value))
  {
    var s, k := p + "." + d, LastColon(d, |d|);
    if k.Some? {
      var m := |p| + 1 + k.value;
      forall j | m < j < |s| ensures s[j] != ':' {
        assert s[j] == d[j - |p| - 1];
      }
      assert s[m] == d[k.value];
      LastIs(s, m);
    } else {
      forall j | 0 <= j < |s| ensures s[j] != ':' {
        assert j < |p| ==> s[j] == p[j];
        assert j > |p| ==> s[j] == d[j - |p| - 1];
      }
    }
  }

  lemma PortUnder(p: string, d: string)
    requires ':' !in p
    ensures HasPort(p + "." + d) <==> PortAt(d, LastColon(d, |d|))
  {
    ColonIn(p, d);
    if LastColon(d, |d|).Some? {
      DigitsUnder(p, d, LastColon(d, |d|).value + 1);
    }
  }

  lemma DigitsUnder(p: string, d: string, i: nat)
    ensures DigitsFrom(p + "." + d, |p| + 1 + i) <==> DigitsFrom(d, i)
  {
    var s := p + "." + d;
    assert forall j | |p| < j < |s| :: s[j] == d[j - |p| - 1];
    assert forall j | 0 <= j < |d| :: d[j] == s[|p| + 1 + j];
  }

  /** The name without a port, even if nothing precedes the port. */
  function StripBare(s: string): string {
    var k := LastColon(s, |s|);
    if PortAt(s, k) then s[..k.value] else s
  }

  /** What normalisation leaves of a domain at the end of a name. */
  function Tail(d: string): string {
    StripBare(StripDot(LowerAll(TrimEnd(d))))
  }

  /** A registered domain under which names survive normalisation. */
  predicate Usable(d: string) {
    Plain(d) && !(d[0] == ':' && DigitsFrom(d, 1))
  }

  lemma StripsNothing(d: string)
    requires d != []
    ensures StripBare(d) == d <==> !HasPort(d) && !(d[0] == ':' && DigitsFrom(d, 1))
  {
    if d[0] == ':' && DigitsFrom(d, 1) {
      LastIs(d, 0);
    }
  }

  /** The usable domains are exactly those that stay whole at the end of a name. */
  lemma UsableExactly(d: string)
    requires d != [] && !Space(d[0])
    ensures Usable(d) <==> Tail(d) == d
  {
    var low := LowerAll(TrimEnd(d));
    if Tail(d) == d {
      assert |StripBare(StripDot(low))| <= |StripDot(low)| <= |low| == |TrimEnd(d)| <= |d|;
      assert TrimEnd(d) == d && low == d && StripDot(d) == d;
    }
    if Plain(d) {
      assert low == d;
    }
    StripsNothing(d);
  }

  lemma {:induction false} TrimEndUnder(p: string, d: string)
    requires d != [] && !Space(d[0])
    ensures TrimEnd(d) != [] && TrimEnd(p + "." + d) == p + "." + TrimEnd(d)
  {
    var s := p + "." + d;
    assert s[|s| - 1] == d[|d| - 1];
    if Space(d[|d| - 1]) {
      assert s[..|s| - 1] == p + "." + d[..|d| - 1];
      TrimEndUnder(p, d[..|d| - 1]);
    }
  }

  predicate Dotted(p: string) {
    p != [] && forall c | c in p :: LabelChar(c) || c == '.'
  }

  lemma LowerUnder(p: string, d: string)
    requires Dotted(p)
    ensures LowerAll(p + "." + d) == p + "." + LowerAll(d)
  {
    assert forall i | 0 <= i < |p| :: p[i] in p;
  }

  lemma StripDotUnder(p: string, x: string)
    requires x != []
    ensures StripDot(p + "." + x) == p + "." + StripDot(x)
  {
    var s := p + "." + x;
    assert s[|s| - 1] == x[|x| - 1] && s[..|s| - 1] == p + "." + x[..|x| - 1];
  }

  lemma StripPortUnder(p: string, y: string)
    requires ':' !in p
    ensures StripPort(p + "." + y) == p + "." + StripBare(y)
  {
    PortUnder(p, y);
    ColonIn(p, y);
    var k := LastColon(y, |y|);
    if k.Some? {
      assert (p + "." + y)[..|p| + 1 + k.value] == p + "." + y[..k.value];
    }
  }

  /** Normalising a name under a registered domain leaves the labels and the domain's tail. */
  lemma NormalUnder(p: string, d: string)
    requires Dotted(p) && d != [] && !Space(d[0])
    ensures NormalizeHost(p + "." + d) == p + "." + Tail(d)
  {
    assert p[0] in p && ':' !in p;
    assert TrimStart(p + "." + d) == p + "." + d;
    TrimEndUnder(p, d);
    LowerUnder(p, TrimEnd(d));
    StripDotUnder(p, LowerAll(TrimEnd(d)));
    StripPortUnder(p, StripDot(LowerAll(TrimEnd(d))));
  }

  /** Under the empty domain only the dot goes. */
  lemma NormalUnderNone(p: string)
    requires Dotted(p) && p[|p| - 1] != '.'
    ensures NormalizeHost(p + ".") == p
  {
    var s := p + ".";
    assert p[0] in p && ':' !in p && s[0] == p[0] && s[|s| - 1] == '.';
    assert Trim(s) == s;
    assert LowerAll(s) == s by {
      assert s == p + "." + "";
      LowerUnder(p, "");
    }
    assert StripDot(s) == p;
  }

  /**
   A name under a registered domain is a fixed point of normalisation exactly
   when the domain is usable.
   */
  lemma UnderDomain(p: string, d: string)
    requires Dotted(p) && p[|p| - 1] != '.' && (d != [] ==> !Space(d[0]))
    ensures NormalizeHost(p + "." + d) == p + "." + d <==> Usable(d)
  {
    if d == [] {
      NormalUnderNone(p);
      assert p + "." + d == p + ".";
    } else {
      NormalUnder(p, d);
      UsableExactly(d);
      assert Tail(d) != d ==> (p + "." + Tail(d))[|p| + 1..] != (p + "." + d)[|p| + 1..];
    }
  }

  // ---------------------------------------------------------------------
  // Projection
  // ---------------------------------------------------------------------

  function TrimSlashes(s: string): string {
    if s != [] && s[0] == '/' then TrimSlashes(s[1..])
    else if s != [] && s[|s| - 1] == '/' then TrimSlashes(s[..|s| - 1])
    else s
  }

  predicate AllSlashes(s: string) {
    forall i | 0 <= i < |s| :: s[i] == '/'
  }

  /** Slashes around a path do not count. */
  lemma {:induction false} SlashesTrimmed(a: string, core: string, b: string)
    requires AllSlashes(a) && AllSlashes(b) && (core != [] ==> core[0] != '/' && core[|core| - 1] != '/')
    ensures TrimSlashes(a + core + b) == core
    decreases |a| + |b|
  {
    var s := a + core + b;
    if a != [] {
      assert s[1..] == a[1..] + core + b;
      SlashesTrimmed(a[1..], core, b);
    } else if core == [] && b != [] {
      assert s[1..] == a + core + b[1..];
      SlashesTrimmed(a, core, b[1..]);
    } else if b != [] {
      assert s[0] == core[0] && s[..|s| - 1] == a + core + b[..|b| - 1];
      SlashesTrimmed(a, core, b[..|b| - 1]);
    } else {
      assert s == core;
    }
  }

  function Segments(path: string): seq<string> {
    Split(TrimSlashes(path), '/')
  }

  predicate Projectable(segment: string) {
    segment !in CLASS_SEGMENTS && DnsSafe(segment)
  }

  /** Only named services project: no class segment and no unsafe label. */
  predicate Projects(path: string) {
    TrimSlashes(path) != [] && forall seg | seg in Segments(path) :: Projectable(seg)
  }

  /** `labels_from_path`. */
  method LabelsFromPath(path: string) returns (labels: Option<seq<string>>)
    ensures labels == if Projects(path) then Some(Reverse(Segments(path))) else None
  {
    if TrimSlashes(path) == [] {
      return None;
    }
    var segments, out: seq<string> := Segments(path), [];
    var i: nat := |segments|;
    while i > 0
      invariant i <= |segments| && out == Reverse(segments)[..|segments| - i]
      invariant forall j | i <= j < |segments| :: Projectable(segments[j])
    {
      i := i - 1;
      if segments[i] in CLASS_SEGMENTS || !DnsSafe(segments[i]) {
        assert !Projectable(segments[i]);
        return None;
      }
      out := out + [segments[i]];
    }
    assert out == Reverse(segments);
    labels := Some(out);
  }

  /** The labels last to first, if all are safe. */
  method Reversed(labels: seq<string>) returns (r: Option<seq<string>>)
    ensures r == if AllSafe(labels) then Some(Reverse(labels)) else None
  {
    var out: seq<string>, i: nat := [], |labels|;
    while i > 0
      invariant i <= |labels| && out == Reverse(labels)[..|labels| - i]
      invariant forall j | i <= j < |labels| :: DnsSafe(labels[j])
    {
      i := i - 1;
      if !DnsSafe(labels[i]) {
        return None;
      }
      out := out + [labels[i]];
    }
    assert out == Reverse(labels);
    r := Some(out);
  }

  /** `path_from_labels`. */
  method PathFromLabels(labels: seq<string>) returns (path: Option<string>)
    ensures path == if labels != [] && AllSafe(labels) then Some(Join(Reverse(labels), '/')) else None
  {
    if labels == [] {
      return None;
    }
    var segments := Reversed(labels);
    path := if segments.None? then None else Some(Join(segments.value, '/'));
  }

  /** Projecting a path and joining the labels again gives the path without its outer slashes. */
  lemma PathRoundTrip(path: string)
    requires Projects(path)
    ensures AllSafe(Reverse(Segments(path))) && Join(Reverse(Reverse(Segments(path))), '/') == TrimSlashes(path)
  {
    ReverseTwice(Segments(path));
    JoinSplit(TrimSlashes(path), '/');
    ReverseSafe(Segments(path));
  }

  lemma ReverseSafe(labels: seq<string>)
    requires forall l | l in labels :: DnsSafe(l)
    ensures AllSafe(Reverse(labels))
  {
    forall l | l in Reverse(labels) ensures DnsSafe(l) {
      var i :| 0 <= i < |labels| && Reverse(labels)[i] == l;
      assert labels[|labels| - 1 - i] in labels;
    }
  }

  // ---------------------------------------------------------------------
  // Resolution
  // ---------------------------------------------------------------------

  type Domains = map<string, string>

  /** The labels from `start` on are a registered domain. */
  predicate Registered(labels: seq<string>, start: nat, domains: Domains) {
    start < |labels| && Join(labels[start..], '.') in domains
  }

  /** `start` begins the longest registered suffix. */
  predicate Longest(labels: seq<string>, start: nat, domains: Domains) {
    Registered(labels, start, domains) && forall k | 0 <= k < start :: !Registered(labels, k, domains)
  }

  predicate Unregistered(labels: seq<string>, domains: Domains) {
    forall k | 0 <= k < |labels| :: !Registered(labels, k, domains)
  }

  /** The tenant and how many labels are left for the path, once the suffix is known. */
  function Owner(labels: seq<string>, start: Option<nat>, domains: Domains): (string, nat)
    requires labels != [] && (start.Some? ==> Registered(labels, start.value, domains))
  {
    match start
    case Some(k) => (domains[Join(labels[k..], '.')], k)
    case None => if |labels| > 1 then (labels[|labels| - 1], |labels| - 1) else ("", 1)
  }

  /** What the labels resolve to, once the suffix is known. */
  function Resolution(labels: seq<string>, start: Option<nat>, domains: Domains): Option<(string, seq<string>)>
    requires labels != [] && (start.Some? ==> Registered(labels, start.value, domains))
  {
    var (tenant, left) := Owner(labels, start, domains);
    if AllSafe(labels[..left]) then Some((tenant, Reverse(labels[..left]))) else None
  }

  /** Searches suffixes from longest to shortest. */
  method LongestSuffix(labels: seq<string>, domains: Domains) returns (start: Option<nat>)
    ensures start.Some? ==> Longest(labels, start.value, domains)
    ensures start.None? ==> Unregistered(labels, domains)
  {
    for k := 0 to |labels|
      invariant forall j | 0 <= j < k :: !Registered(labels, j, domains)
    {
      if Join(labels[k..], '.') in domains {
        return Some(k);
      }
    }
    start := None;
  }

  lemma LongestUnique(labels: seq<string>, a: nat, b: nat, domains: Domains)
    requires Longest(labels, a, domains) && Longest(labels, b, domains)
    ensures a == b
  {
  }

  /** The longest registered suffix decides the tenant; without one, the last label does. */
  ghost predicate Resolves(name: string, domains: Domains, r: Option<(string, seq<string>)>) {
    var host := NormalizeHost(name);
    if host == [] then r == None
    else
      var labels := Split(host, '.');
      && (forall k: nat | Longest(labels, k, domains) :: r == Resolution(labels, Some(k), domains))
      && (Unregistered(labels, domains) ==> r == Resolution(labels, None, domains))
  }

  /** `resolve_wire_name`. */
  method ResolveWireName(name: string, domains: Domains) returns (r: Option<(string, seq<string>)>)
    ensures Resolves(name, domains, r)
  {
    var host := NormalizeHost(name);
    if host == [] {
      return None;
    }
    var labels := Split(host, '.');
    var start := LongestSuffix(labels, domains);
    forall k: nat | Longest(labels, k, domains) ensures start == Some(k) {
      if start.Some? { LongestUnique(labels, start.value, k, domains); }
    }
    var owner := Owner(labels, start, domains);
    var path := Reversed(labels[..owner.1]);
    r := if path.None? then None else Some((owner.0, path.value));
  }

  /** Names that differ in case only resolve alike. */
  lemma ResolvesCaseBlind(a: string, b: string, domains: Domains, r: Option<(string, seq<string>)>)
    requires SameButCase(a, b)
    ensures Resolves(a, domains, r) <==> Resolves(b, domains, r)
  {
    CaseBlind(a, b);
  }

  // ---------------------------------------------------------------------
  // Round trips
  // ---------------------------------------------------------------------

  lemma {:induction false} LongestExists(labels: seq<string>, domains: Domains, k: nat)
    requires k <= |labels| && forall j | 0 <= j < k :: !Registered(labels, j, domains)
    ensures Unregistered(labels, domains) || exists start: nat :: Longest(labels, start, domains)
    decreases |labels| - k
  {
    if k < |labels| {
      if Registered(labels, k, domains) {
        assert Longest(labels, k, domains);
      } else {
        LongestExists(labels, domains, k + 1);
      }
    }
  }

  lemma {:induction false} JoinedChars(labels: seq<string>)
    requires labels != [] && AllSafe(labels)
    ensures var p := Join(labels, '.'); Dotted(p) && p[|p| - 1] != '.'
  {
    assert labels[0] in labels;
    if |labels| > 1 {
      JoinedChars(labels[1..]);
    } else {
      assert labels[0][|labels[0]| - 1] in labels[0];
    }
  }

  /** The labels a name under a registered domain is split into. */
  function HeardAs(labels: seq<string>, d: string): seq<string> {
    if d == [] then labels else labels + Split(Tail(d), '.')
  }

  lemma SplitUnder(labels: seq<string>, x: string)
    requires labels != [] && AllSafe(labels)
    ensures Split(Join(labels, '.') + "." + x, '.') == labels + Split(x, '.')
  {
    JoinConcat(labels, Split(x, '.'), '.');
    JoinSplit(x, '.');
    forall p | p in labels + Split(x, '.') ensures '.' !in p {
      if p in Split(x, '.') { SplitFree(x, '.', p); }
    }
    SplitJoin(labels + Split(x, '.'), '.');
  }

  /** Safe labels under any registered domain are heard as those labels and what is left of the domain. */
  lemma Heard(labels: seq<string>, d: string)
    requires labels != [] && AllSafe(labels) && (d != [] ==> !Space(d[0]))
    ensures var host := NormalizeHost(Join(labels, '.') + "." + d);
            host != [] && Split(host, '.') == HeardAs(labels, d)
  {
    JoinedChars(labels);
    if d == [] {
      assert Join(labels, '.') + "." + d == Join(labels, '.') + ".";
      NormalUnderNone(Join(labels, '.'));
      SplitJoin(labels, '.');
    } else {
      NormalUnder(Join(labels, '.'), d);
      SplitUnder(labels, Tail(d));
    }
  }

  /**
   Where a resolution over `labels` and a tail lands: on the whole path exactly
   when the path's labels are what is left of the suffix chosen.
   */
  lemma Landed(labels: seq<string>, tail: seq<string>, start: Option<nat>, domains: Domains)
    requires labels != [] && AllSafe(labels) && tail != []
    requires start.Some? ==> Registered(labels + tail, start.value, domains)
    ensures var r, left := Resolution(labels + tail, start, domains), Owner(labels + tail, start, domains).1;
            && (r.Some? && |r.value.1| == |labels| <==> left == |labels|)
            && (left == |labels| ==> r.value.1 == Reverse(labels))
            && (left <= |labels| ==> r.Some? && |r.value.1| == left)
  {
    var left := Owner(labels + tail, start, domains).1;
    if left <= |labels| {
      assert (labels + tail)[..left] == labels[..left];
      assert AllSafe(labels[..left]);
      if left == |labels| {
        assert labels[..left] == labels;
      }
    }
  }

  /** No suffix of the labels that begins before `n` is registered. */
  predicate NoneBefore(labels: seq<string>, n: nat, domains: Domains) {
    forall k | 0 <= k < n :: !Registered(labels, k, domains)
  }

  /** Which names under a registered domain resolve back to the domain's tenant and the path. */
  predicate Returns(labels: seq<string>, d: string, domains: Domains)
    requires d in domains
  {
    var all, x := HeardAs(labels, d), Tail(d);
    if d == [] then |labels| == 1 && Unregistered(all, domains) && domains[d] == ""
    else if x in domains then NoneBefore(all, |labels|, domains) && domains[x] == domains[d]
    else '.' !in x && Unregistered(all, domains) && x == domains[d]
  }

  /** The tables that seeding can build: no key starts with white space. */
  predicate Keyed(domains: Domains) {
    forall d | d in domains :: d != [] ==> !Space(d[0])
  }

  /** With the domain's tail registered, its tenant owns the name unless a longer suffix is registered. */
  lemma RegisteredTail(labels: seq<string>, x: string, domains: Domains, start: nat)
    requires labels != [] && AllSafe(labels) && x in domains && Longest(labels + Split(x, '.'), start, domains)
    ensures start <= |labels| && (start == |labels| <==> NoneBefore(labels + Split(x, '.'), |labels|, domains))
    ensures start == |labels| ==>
              Resolution(labels + Split(x, '.'), Some(start), domains) == Some((domains[x], Reverse(labels)))
  {
    var tail := Split(x, '.');
    JoinSplit(x, '.');
    assert (labels + tail)[|labels|..] == tail;
    assert Registered(labels + tail, |labels|, domains);
    Landed(labels, tail, Some(start), domains);
  }

  lemma SplitOne(x: string)
    ensures |Split(x, '.')| == 1 <==> '.' !in x
    ensures '.' !in x ==> Split(x, '.') == [x]
  {
    assert x[..|x|] == x;
    if '.' !in x {
      CutNone(x, '.');
    }
  }

  /** Without it, only the last label can name the tenant. */
  lemma UnregisteredTail(labels: seq<string>, x: string, domains: Domains, start: Option<nat>, t: string)
    requires labels != [] && AllSafe(labels) && x !in domains
    requires match start
             case Some(k) => Longest(labels + Split(x, '.'), k, domains)
             case None => Unregistered(labels + Split(x, '.'), domains)
    ensures Resolution(labels + Split(x, '.'), start, domains) == Some((t, Reverse(labels))) <==>
            '.' !in x && start.None? && x == t
  {
    var tail := Split(x, '.');
    JoinSplit(x, '.');
    SplitOne(x);
    assert (labels + tail)[|labels|..] == tail;
    assert !Registered(labels + tail, |labels|, domains);
    Landed(labels, tail, start, domains);
  }

  lemma LongestExcludes(labels: seq<string>, start: nat, domains: Domains)
    requires Longest(labels, start, domains)
    ensures !Unregistered(labels, domains)
  {
    assert Registered(labels, start, domains);
  }

  /** Under the empty domain only one-label names can come back, and only to the root. */
  lemma EmptyDomain(labels: seq<string>, domains: Domains, start: Option<nat>, t: string)
    requires labels != [] && AllSafe(labels)
    requires match start
             case Some(k) => Longest(labels, k, domains)
             case None => Unregistered(labels, domains)
    ensures Resolution(labels, start, domains) == Some((t, Reverse(labels))) <==>
            |labels| == 1 && start.None? && t == ""
  {
    var left := Owner(labels, start, domains).1;
    assert AllSafe(labels[..left]);
    if left == |labels| {
      assert labels[..left] == labels;
    }
  }

  /** The suffix that decides a name. */
  lemma Decided(labels: seq<string>, domains: Domains) returns (start: Option<nat>)
    ensures match start
            case Some(k) => Longest(labels, k, domains)
            case None => Unregistered(labels, domains)
  {
    LongestExists(labels, domains, 0);
    if k: nat :| Longest(labels, k, domains) {
      start := Some(k);
    } else {
      start := None;
    }
  }

  lemma ReturnsExactly(labels: seq<string>, d: string, domains: Domains, start: Option<nat>)
    requires labels != [] && AllSafe(labels) && d in domains
    requires var all := HeardAs(labels, d);
             match start
             case Some(k) => Longest(all, k, domains)
             case None => Unregistered(all, domains)
    ensures Resolution(HeardAs(labels, d), start, domains) == Some((domains[d], Reverse(labels))) <==>
            Returns(labels, d, domains)
  {
    var all, x := HeardAs(labels, d), Tail(d);
    if start.Some? {
      LongestExcludes(all, start.value, domains);
    }
    if d == [] {
      EmptyDomain(labels, domains, start, domains[d]);
    } else if x in domains {
      TailRegistered(labels, x, domains);
      RegisteredTail(labels, x, domains, start.value);
      Landed(labels, Split(x, '.'), start, domains);
    } else {
      UnregisteredTail(labels, x, domains, start, domains[d]);
    }
  }

  lemma TailRegistered(labels: seq<string>, x: string, domains: Domains)
    requires x in domains
    ensures !Unregistered(labels + Split(x, '.'), domains)
  {
    JoinSplit(x, '.');
    assert (labels + Split(x, '.'))[|labels|..] == Split(x, '.');
    assert Registered(labels + Split(x, '.'), |labels|, domains);
  }

  /**
   Under any registered domain: the reversed labels of a path followed by the
   domain resolve to the domain's tenant and the path exactly when the name
   returns. Under a usable domain that is when no strictly longer suffix of the
   name is registered.
   */
  lemma DomainRoundTrip(path: string, d: string, domains: Domains, r: Option<(string, seq<string>)>)
    requires Projects(path) && d in domains && Keyed(domains)
    requires Resolves(Join(Reverse(Segments(path)), '.') + "." + d, domains, r)
    ensures var labels := Reverse(Segments(path));
            && (r == Some((domains[d], Segments(path))) <==> Returns(labels, d, domains))
            && (Usable(d) ==>
                  (Returns(labels, d, domains) <==> NoneBefore(labels + Split(d, '.'), |labels|, domains)))
  {
    var labels := Reverse(Segments(path));
    PathRoundTrip(path);
    ReverseTwice(Segments(path));
    Heard(labels, d);
    var start := Decided(HeardAs(labels, d), domains);
    ReturnsExactly(labels, d, domains, start);
    if Usable(d) {
      UsableExactly(d);
    }
  }

  lemma UsableUnder(p: string, tenant: string)
    requires Dotted(p) && p[|p| - 1] != '.' && DnsSafe(tenant)
    ensures Usable(p + "." + tenant)
  {
    SafeIsUsable(tenant);
    var s := p + "." + tenant;
    assert NormalizeHost(s) == s by {
      UnderDomain(p, tenant);
    }
    NormalExactly(s);
    assert p[0] in p && s[0] == p[0];
  }

  /** Every domain made of safe labels is usable. */
  lemma SafeDomain(labels: seq<string>)
    requires labels != [] && AllSafe(labels)
    ensures Usable(Join(labels, '.'))
  {
    var n := |labels| - 1;
    assert labels[n] in labels;
    if n == 0 {
      SafeIsUsable(labels[0]);
    } else {
      JoinedChars(labels[..n]);
      UsableUnder(Join(labels[..n], '.'), labels[n]);
      JoinConcat(labels[..n], [labels[n]], '.');
      assert labels == labels[..n] + [labels[n]];
    }
  }

  /** Seeding a domain with two dots at its end registers one that keeps a dot, and is not usable. */
  lemma SeededUnusable(a: string)
    requires DnsSafe(a)
    ensures NormalizeHost(a + "..") == a + "." && !Usable(a + ".")
  {
    SafeIsPlain(a);
    var s := a + "..";
    assert s[0] == a[0] && s[|s| - 1] == '.' && s[..|s| - 1] == a + ".";
    assert Trim(s) == s;
    assert LowerAll(s) == s;
    assert ':' !in a + ".";
    assert (a + ".")[|a|] == '.';
  }

  lemma TailOfDotted(a: string)
    requires DnsSafe(a)
    ensures Tail(a + ".") == a
  {
    SafeIsPlain(a);
    var s := a + ".";
    assert s[|s| - 1] == '.' && s[..|a|] == a;
    assert LowerAll(s) == s;
  }

  /** With only such a domain registered, its names go to the tenant of its last label, whoever registered it. */
  lemma DottedDomain(path: string, a: string, tenant: string, r: Option<(string, seq<string>)>)
    requires Projects(path) && DnsSafe(a)
    requires Resolves(Join(Reverse(Segments(path)), '.') + "." + (a + "."), map[a + "." := tenant], r)
    ensures r == Some((a, Segments(path)))
  {
    var labels, domains := Reverse(Segments(path)), map[a + "." := tenant];
    PathRoundTrip(path);
    ReverseTwice(Segments(path));
    SafeIsPlain(a);
    assert (a + ".")[0] == a[0];
    Heard(labels, a + ".");
    TailOfDotted(a);
    SplitOne(a);
    OtherDomain(labels, a, domains);
    assert (labels + [a])[..|labels|] == labels;
  }

  lemma OtherDomain(labels: seq<string>, a: string, domains: Domains)
    requires DnsSafe(a) && domains.Keys == {a + "."}
    ensures Unregistered(labels + [a], domains)
  {
    SafeIsPlain(a);
    forall k | 0 <= k <= |labels| ensures !Registered(labels + [a], k, domains) {
      assert (labels + [a])[k..] == labels[k..] + [a];
      if k < |labels| {
        JoinConcat(labels[k..], [a], '.');
      }
      var s := Join(labels[k..] + [a], '.');
      assert s[|s| - 1] == a[|a| - 1] != '.';
    }
  }

  lemma SafeIsPlain(tenant: string)
    requires DnsSafe(tenant)
    ensures Plain(tenant) && '.' !in tenant && ':' !in tenant && tenant[0] != ':'
  {
    assert ':' !in tenant && '.' !in tenant;
    forall i | 0 <= i < |tenant| ensures !Space(tenant[i]) && Lower(tenant[i]) == tenant[i] && tenant[i] != ':' {
      assert tenant[i] in tenant;
    }
    assert tenant[|tenant| - 1] in tenant;
  }

  lemma SafeIsUsable(tenant: string)
    requires DnsSafe(tenant)
    ensures Usable(tenant) && Split(tenant, '.') == [tenant]
  {
    SafeIsPlain(tenant);
    CutNone(tenant, '.');
  }

  /**
   Under the tenant's own label: the reversed labels of a path followed by the
   tenant resolve to the tenant and the path, exactly when no suffix of the name
   is registered, or the tenant's label alone is and maps to the tenant.
   */
  lemma TenantRoundTrip(path: string, tenant: string, domains: Domains, r: Option<(string, seq<string>)>)
    requires Projects(path) && DnsSafe(tenant)
    requires Resolves(Join(Reverse(Segments(path)), '.') + "." + tenant, domains, r)
    ensures var all := Reverse(Segments(path)) + [tenant];
            r == Some((tenant, Segments(path))) <==>
            || Unregistered(all, domains)
            || (tenant in domains && NoneBefore(all, |all| - 1, domains) && domains[tenant] == tenant)
  {
    var labels, all := Reverse(Segments(path)), Reverse(Segments(path)) + [tenant];
    PathRoundTrip(path);
    ReverseTwice(Segments(path));
    SafeIsUsable(tenant);
    UsableExactly(tenant);
    Heard(labels, tenant);
    var start := Decided(all, domains);
    if start.Some? {
      LongestExcludes(all, start.value, domains);
    }
    if tenant in domains {
      TailRegistered(labels, tenant, domains);
      RegisteredTail(labels, tenant, domains, start.value);
      Landed(labels, [tenant], start, domains);
    } else {
      UnregisteredTail(labels, tenant, domains, start, tenant);
    }
  }

  /** The advisory domain table. */
  class DomainTable {
    var entries: Domains

    constructor ()
      ensures entries == map[] && Keyed(entries)
    {
      entries := map[];
    }

    /** `seed`: a plain domain is registered as it is. */
    method Seed(domain: string, tenant: string)
      requires Keyed(entries)
      modifies this
      ensures Keyed(entries)
      ensures entries == old(entries)[NormalizeHost(domain) := tenant]
      ensures Plain(domain) ==> entries == old(entries)[domain := tenant]
    {
      if domain != [] { NormalExactly(domain); }
      KeyStart(domain);
      entries := entries[NormalizeHost(domain) := tenant];
    }
  }
}
