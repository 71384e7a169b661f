/**
 Capability grants: which contexts a grant allows, when a parent's grant covers
 a child's, and what delegation adds.
 */
module Authority {
  import opened Common
  import Quota

  type ResourceClass = Quota.ResourceClass

  datatype Capability =
    | ProcessLifecycle | SharedMemory | Signal | Network | Storage | SessionLifecycle | ActivityRead
    | MeteringRead | GuestLogRead | GuestLogWrite | HostQueue | DelegateGrants | SystemRegistration
    | MintCertificate | QuotaWrite

  datatype Identity = Local(handle: nat) | Shared(resource: nat)

  datatype Locality = Any | Cluster | Host(name: string) {
    predicate Matches(actual: Locality) {
      match this
      case Any => true
      case Cluster => actual.Cluster? || actual.Host?
      case Host(_) => actual == this
    }
  }

  datatype Namespace = Root | Named(tenant: string) {
    predicate MatchesTenant(actual: Option<string>) {
      match this
      case Root => actual == None
      case Named(t) => actual == Some(t)
    }

    /** Root is greater than any tenant, and a tenant covers only itself. */
    predicate Covers(child: Namespace) {
      Root? || child == this
    }
  }

  datatype Selector =
    | Tenant(tenant: string)
    | InNamespace(space: Namespace)
    | UriPrefix(prefix: string)
    | InLocality(scope: Locality)
    | OfClass(class_: ResourceClass)
    | Explicit(id: Identity)
    | Children

  datatype Grant = Grant(capability: Capability, selectors: seq<Selector>)

  datatype Context = Context(tenant: Option<string>, uri: Option<string>, locality: Locality,
                             class_: Option<ResourceClass>, id: Option<Identity>)

  /**
   Whether the selector admits the context. `uri` is the URI matcher, and `kin`
   says whether the context's resource is a descendant of the holder; the ABI
   alone, without a process tree, takes it as false.
   */
  predicate Matches(sel: Selector, c: Context, uri: (string, string) -> bool, kin: bool) {
    match sel
    case Tenant(t) => c.tenant == Some(t)
    case InNamespace(space) => space.MatchesTenant(c.tenant)
    case UriPrefix(prefix) => c.uri.Some? && uri(prefix, c.uri.value)
    case InLocality(scope) => scope.Matches(c.locality)
    case OfClass(class_) => c.class_ == Some(class_)
    case Explicit(id) => c.id == Some(id)
    case Children => kin
  }

  predicate Allows(g: Grant, c: Context, uri: (string, string) -> bool, kin: bool) {
    forall sel | sel in g.selectors :: Matches(sel, c, uri, kin)
  }

  // ---------------------------------------------------------------------
  // Coverage
  // ---------------------------------------------------------------------

  predicate SelectorCovers(parent: Selector, child: Selector) {
    match parent
    case Tenant(t) => child == Tenant(t)
    case InNamespace(space) =>
      (child.InNamespace? && space.Covers(child.space)) || (child.Tenant? && space.Covers(Named(child.tenant)))
    case UriPrefix(prefix) => child.UriPrefix? && prefix <= child.prefix
    case InLocality(scope) => child.InLocality? && scope.Matches(child.scope)
    case OfClass(_) => child == parent
    case Explicit(_) => child == parent
    case Children => child.Children?
  }

  predicate Narrowed(parent: Selector, child: Grant) {
    exists sel | sel in child.selectors :: SelectorCovers(parent, sel)
  }

  predicate GrantCovers(parent: Grant, child: Grant) {
    parent.capability == child.capability && forall sel | sel in parent.selectors :: Narrowed(sel, child)
  }

  lemma SelectorTransitive(a: Selector, b: Selector, c: Selector)
    requires SelectorCovers(a, b) && SelectorCovers(b, c)
    ensures SelectorCovers(a, c)
  {
  }

  lemma CoversReflexive(g: Grant)
    ensures GrantCovers(g, g)
  {
    forall sel | sel in g.selectors ensures Narrowed(sel, g) {
      assert SelectorCovers(sel, sel);
    }
  }

  lemma CoversTransitive(a: Grant, b: Grant, c: Grant)
    requires GrantCovers(a, b) && GrantCovers(b, c)
    ensures GrantCovers(a, c)
  {
    forall sel | sel in a.selectors ensures Narrowed(sel, c) {
      assert Narrowed(sel, b);
      var mid :| mid in b.selectors && SelectorCovers(sel, mid);
      assert Narrowed(mid, c);
      var low :| low in c.selectors && SelectorCovers(mid, low);
      SelectorTransitive(sel, mid, low);
    }
  }

  predicate HasRoot(g: Grant) {
    InNamespace(Root) in g.selectors
  }

  predicate HasPrefix(g: Grant) {
    exists sel | sel in g.selectors :: sel.UriPrefix?
  }

  /** A URI matched by an extension of a prefix is matched by the prefix. */
  ghost predicate Monotone(uri: (string, string) -> bool) {
    forall p, x, u {:trigger uri(p + x, u)} :: uri(p + x, u) ==> uri(p, u)
  }

  /** Matching by string prefix, as for URIs that are not network endpoints. */
  function PlainMatch(): (string, string) -> bool {
    (prefix: string, u: string) => prefix <= u
  }

  lemma PlainIsMonotone()
    ensures Monotone(PlainMatch())
  {
    forall p, x, u | PlainMatch()(p + x, u) ensures PlainMatch()(p, u) {
      assert u[..|p|] == (p + x)[..|p|] == p;
    }
  }

  /** A covered selector of the other kinds is implied by the one that covers it. */
  lemma SelectorSound(parent: Selector, child: Selector, c: Context, uri: (string, string) -> bool, kinP: bool,
                      kinC: bool)
    requires SelectorCovers(parent, child) && Matches(child, c, uri, kinC) && (parent.Children? && kinC ==> kinP)
    requires parent != InNamespace(Root) && (parent.UriPrefix? ==> Monotone(uri))
    ensures Matches(parent, c, uri, kinP)
  {
    if parent.UriPrefix? {
      assert child.prefix == parent.prefix + child.prefix[|parent.prefix|..];
    }
  }

  /**
   Coverage is semantic containment: whatever a covered child grant allows, the
   parent grant allows, unless the parent grant speaks of the root namespace, or
   of URI prefixes under a matcher that is not monotone. Only a parent grant over
   children depends on who is whose kin.
   */
  lemma CoversSound(parent: Grant, child: Grant, c: Context, uri: (string, string) -> bool, kinP: bool, kinC: bool)
    requires GrantCovers(parent, child) && (HasPrefix(parent) ==> Monotone(uri))
    requires HasRoot(parent) ==> HasRoot(child)
    requires Allows(child, c, uri, kinC) && (Children in parent.selectors && kinC ==> kinP)
    ensures Allows(parent, c, uri, kinP)
  {
    forall sel | sel in parent.selectors ensures Matches(sel, c, uri, kinP) {
      assert Narrowed(sel, child);
      var low :| low in child.selectors && SelectorCovers(sel, low);
      if sel == InNamespace(Root) {
        assert Matches(InNamespace(Root), c, uri, kinC);
      } else {
        SelectorSound(sel, low, c, uri, kinP, kinC);
      }
    }
  }

  // ---------------------------------------------------------------------
  // URI prefixes and localities
  // ---------------------------------------------------------------------

  /** Whatever grants cover each other away from the root, the covered one is contained. */
  ghost predicate PrefixesContain(uri: (string, string) -> bool) {
    forall parent, child | GrantCovers(parent, child) && !HasRoot(parent) :: Contains(parent, child, uri)
  }

  /** Coverage means containment away from the root exactly for monotone matchers. */
  lemma PrefixesExactly(uri: (string, string) -> bool)
    ensures PrefixesContain(uri) <==> Monotone(uri)
  {
    if Monotone(uri) {
      forall parent, child | GrantCovers(parent, child) && !HasRoot(parent) ensures Contains(parent, child, uri) {
        forall c, kinP, kinC | (kinC ==> kinP) && CanBeKin(c, kinP) && Allows(child, c, uri, kinC)
          ensures Allows(parent, c, uri, kinP)
        {
          CoversSound(parent, child, c, uri, kinP, kinC);
        }
      }
    }
    if PrefixesContain(uri) {
      forall p, x, u | uri(p + x, u) ensures uri(p, u) {
        OnePrefix(p, x, u, uri);
      }
    }
  }

  lemma OnePrefix(p: string, x: string, u: string, uri: (string, string) -> bool)
    requires PrefixesContain(uri) && uri(p + x, u)
    ensures uri(p, u)
  {
    var parent, child := Grant(Network, [UriPrefix(p)]), Grant(Network, [UriPrefix(p + x)]);
    assert child.selectors[0] in child.selectors && SelectorCovers(parent.selectors[0], child.selectors[0]);
    assert GrantCovers(parent, child) && !HasRoot(parent);
    var c := Context(None, Some(u), Any, None, None);
    assert Allows(child, c, uri, false);
    assert Contains(parent, child, uri);
    assert Allows(parent, c, uri, false) && parent.selectors[0] in parent.selectors;
    assert Matches(parent.selectors[0], c, uri, false);
  }

  /** Among plain prefixes, coverage is exactly to extend the parent's prefix. */
  lemma PrefixNarrows(p: string, q: string)
    ensures SelectorCovers(UriPrefix(p), UriPrefix(q)) <==> exists x :: q == p + x
  {
    if p <= q {
      assert q == p + q[|p|..];
    }
  }

  /** Localities are ordered: anywhere above the cluster, the cluster above each host, and no more. */
  lemma LocalityOrder(a: Locality, b: Locality, c: Locality, host: string)
    ensures a.Matches(a) && (a.Matches(b) && b.Matches(c) ==> a.Matches(c)) && (a.Matches(b) && b.Matches(a) ==> a == b)
    ensures Any.Matches(a) && Cluster.Matches(Host(host)) && (Host(host).Matches(a) ==> a == Host(host))
  {
  }

  /** A namespace covers the selector of a tenant exactly when it covers the tenant's namespace. */
  lemma NamespaceOrder(space: Namespace, t: string)
    ensures SelectorCovers(InNamespace(space), Tenant(t)) <==> SelectorCovers(InNamespace(space), InNamespace(Named(t)))
    ensures SelectorCovers(InNamespace(space), InNamespace(Named(t))) <==> space == Root || space == Named(t)
    ensures SelectorCovers(InNamespace(space), InNamespace(Root)) <==> space == Root
  {
  }

  /** A context without a URI, a class or an id meets no selector that asks for one. */
  lemma UnknownIsRefused(g: Grant, c: Context, uri: (string, string) -> bool, kin: bool)
    requires Allows(g, c, uri, kin)
    ensures HasPrefix(g) ==> c.uri.Some?
    ensures (exists sel | sel in g.selectors :: sel.OfClass?) ==> c.class_.Some?
    ensures (exists sel | sel in g.selectors :: sel.Explicit?) ==> c.id.Some?
    ensures (exists sel | sel in g.selectors :: Fence(sel).Some?) ==> c.tenant.Some?
  {
    forall sel | sel in g.selectors
      ensures (sel.UriPrefix? ==> c.uri.Some?) && (sel.OfClass? ==> c.class_.Some?)
      ensures (sel.Explicit? ==> c.id.Some?) && (Fence(sel).Some? ==> c.tenant.Some?)
    {
      assert Matches(sel, c, uri, kin);
    }
  }

  // ---------------------------------------------------------------------
  // Exactly when coverage fails to contain
  // ---------------------------------------------------------------------

  /** The tenant a selector asks for: `Some(None)` is the root. */
  function Wants(sel: Selector): Option<Option<string>> {
    match sel
    case Tenant(t) => Some(Some(t))
    case InNamespace(Root) => Some(None)
    case InNamespace(Named(t)) => Some(Some(t))
    case _ => None
  }

  /** Two selectors some context meets at once. */
  predicate Compatible(a: Selector, b: Selector) {
    && (Wants(a).Some? && Wants(b).Some? ==> Wants(a) == Wants(b))
    && (a.OfClass? && b.OfClass? ==> a == b)
    && (a.Explicit? && b.Explicit? ==> a == b)
    && (a.InLocality? && a.scope.Host? && b.InLocality? && b.scope.Host? ==> a == b)
    && (a.Children? && b.Explicit? ==> b.id.Local?)
    && (b.Children? && a.Explicit? ==> a.id.Local?)
  }

  /** Only a local id can be that of a descendant. */
  predicate CanBeKin(c: Context, kin: bool) {
    kin ==> c.id.Some? && c.id.value.Local?
  }

  /** The grant's selectors agree with each other, so they can be met together. */
  predicate Consistent(g: Grant) {
    forall a, b | a in g.selectors && b in g.selectors :: Compatible(a, b)
  }

  /** A context that a consistent grant allows; with children selectors, to a holder whose descendant it concerns. */
  ghost function Witness(g: Grant): Context {
    Context(
      if sel :| sel in g.selectors && Wants(sel).Some? then Wants(sel).value else None,
      None,
      if sel :| sel in g.selectors && sel.InLocality? && sel.scope.Host? then sel.scope else Cluster,
      if sel :| sel in g.selectors && sel.OfClass? then Some(sel.class_) else None,
      if sel :| sel in g.selectors && sel.Explicit? then Some(sel.id)
      else if Children in g.selectors then Some(Local(0)) else None)
  }

  lemma ConsistentIsSatisfiable(g: Grant, uri: (string, string) -> bool)
    requires Consistent(g) && !HasPrefix(g)
    ensures var kin := Children in g.selectors; CanBeKin(Witness(g), kin) && Allows(g, Witness(g), uri, kin)
  {
    var kin := Children in g.selectors;
    forall sel | sel in g.selectors ensures Matches(sel, Witness(g), uri, kin) {
    }
  }

  lemma SatisfiableIsConsistent(g: Grant, c: Context, uri: (string, string) -> bool, kin: bool)
    requires CanBeKin(c, kin) && Allows(g, c, uri, kin)
    ensures Consistent(g)
  {
    forall a, b | a in g.selectors && b in g.selectors ensures Compatible(a, b) {
      assert Matches(a, c, uri, kin) && Matches(b, c, uri, kin);
    }
  }

  /** What the child grant allows its holder, the parent grant allows a holder above it in the tree. */
  ghost predicate Contains(parent: Grant, child: Grant, uri: (string, string) -> bool) {
    forall c, kinP, kinC | (kinC ==> kinP) && CanBeKin(c, kinP) && Allows(child, c, uri, kinC) ::
      Allows(parent, c, uri, kinP)
  }

  /**
   Among prefix-free grants, coverage means containment exactly when a
   root-namespace parent meets a root-namespace child or a child grant that
   contradicts itself.
   */
  lemma ContainsExactly(parent: Grant, child: Grant, uri: (string, string) -> bool)
    requires GrantCovers(parent, child) && !HasPrefix(parent) && !HasPrefix(child)
    ensures Contains(parent, child, uri) <==> (HasRoot(parent) ==> HasRoot(child) || !Consistent(child))
  {
    if HasRoot(parent) && !HasRoot(child) && Consistent(child) {
      ConsistentIsSatisfiable(child, uri);
      assert Narrowed(InNamespace(Root), child);
      var low :| low in child.selectors && SelectorCovers(InNamespace(Root), low);
      var kin := Children in child.selectors;
      assert Matches(low, Witness(child), uri, kin);
      assert !Matches(InNamespace(Root), Witness(child), uri, kin);
      assert !Allows(parent, Witness(child), uri, kin);
    } else {
      forall c, kinP, kinC | (kinC ==> kinP) && CanBeKin(c, kinP) && Allows(child, c, uri, kinC)
        ensures Allows(parent, c, uri, kinP)
      {
        SatisfiableIsConsistent(child, c, uri, kinC);
        CoversSound(parent, child, c, uri, kinP, kinC);
      }
    }
  }

  /** A root-namespace grant covers a tenant grant and yet allows none of its contexts. */
  lemma RootCoversOutside(uri: (string, string) -> bool)
    ensures var parent, child := Grant(Network, [InNamespace(Root)]), Grant(Network, [Tenant("a")]);
            GrantCovers(parent, child) && !Contains(parent, child, uri)
  {
    var parent, child := Grant(Network, [InNamespace(Root)]), Grant(Network, [Tenant("a")]);
    assert SelectorCovers(parent.selectors[0], child.selectors[0]) && child.selectors[0] in child.selectors;
    assert Compatible(child.selectors[0], child.selectors[0]);
    ContainsExactly(parent, child, uri);
  }

  // ---------------------------------------------------------------------
  // Delegation
  // ---------------------------------------------------------------------

  datatype Scope = RootWide | Tenants(names: set<string>)

  /** The tenant a selector fences its grant to. */
  function Fence(sel: Selector): Option<string> {
    match sel
    case Tenant(t) => Some(t)
    case InNamespace(Named(t)) => Some(t)
    case _ => None
  }

  predicate Fenced(g: Grant, names: set<string>) {
    exists sel | sel in g.selectors :: Fence(sel).Some? && Fence(sel).value in names
  }

  predicate FencedSomewhere(g: Grant) {
    exists sel | sel in g.selectors :: Fence(sel).Some?
  }

  /** Some `DelegateGrants` grant carries the selector. */
  predicate Delegates(grants: seq<Grant>, sel: Selector) {
    exists g | g in grants :: g.capability == DelegateGrants && sel in g.selectors
  }

  /** The tenants named by `DelegateGrants` grants. */
  function DelegatedTenants(grants: seq<Grant>): set<string> {
    set g, sel | g in grants && g.capability == DelegateGrants && sel in g.selectors && Fence(sel).Some? ::
      Fence(sel).value
  }

  /** What an authority may delegate. */
  function ScopeOf(grants: seq<Grant>): Option<Scope> {
    if Delegates(grants, InNamespace(Root)) then Some(RootWide)
    else if DelegatedTenants(grants) == {} then None
    else Some(Tenants(DelegatedTenants(grants)))
  }

  /** `delegation_scope`. */
  method DelegationScope(grants: seq<Grant>) returns (scope: Option<Scope>)
    ensures scope == ScopeOf(grants)
  {
    var names: set<string>, root := {}, false;
    for i := 0 to |grants|
      invariant names == DelegatedTenants(grants[..i]) && root == Delegates(grants[..i], InNamespace(Root))
    {
      var g := grants[i];
      assert grants[..i + 1] == grants[..i] + [g];
      if g.capability == DelegateGrants {
        for j := 0 to |g.selectors|
          invariant names == DelegatedTenants(grants[..i] + [Grant(DelegateGrants, g.selectors[..j])])
          invariant root == Delegates(grants[..i] + [Grant(DelegateGrants, g.selectors[..j])], InNamespace(Root))
        {
          ScopeNext(grants[..i], g.selectors[..j], g.selectors[j]);
          assert g.selectors[..j + 1] == g.selectors[..j] + [g.selectors[j]];
          match g.selectors[j] {
            case Tenant(t) => names := names + {t};
            case InNamespace(Named(t)) => names := names + {t};
            case InNamespace(Root) => root := true;
            case _ =>
          }
        }
        assert g == Grant(DelegateGrants, g.selectors[..|g.selectors|]);
      }
    }
    assert grants[..|grants|] == grants;
    scope := if root then Some(RootWide) else if names == {} then None else Some(Tenants(names));
  }

  /** A selector that delegates to the tenant. */
  predicate Reaches(sel: Selector, t: string) {
    sel == InNamespace(Root) || sel == Tenant(t) || sel == InNamespace(Named(t))
  }

  /** Some `DelegateGrants` grant names the root or the tenant. */
  predicate DelegatesTo(grants: seq<Grant>, t: string) {
    exists g, sel | g in grants && sel in g.selectors :: g.capability == DelegateGrants && Reaches(sel, t)
  }

  predicate AdmitsTenant(scope: Scope, t: string) {
    scope.RootWide? || t in scope.names
  }

  /** An authority may delegate to a tenant exactly by a `DelegateGrants` grant that names the root or the tenant. */
  lemma MayDelegateExactly(grants: seq<Grant>, t: string)
    ensures ScopeOf(grants).Some? && AdmitsTenant(ScopeOf(grants).value, t) <==> DelegatesTo(grants, t)
  {
    if DelegatesTo(grants, t) {
      var g, sel :| g in grants && sel in g.selectors && g.capability == DelegateGrants && Reaches(sel, t);
      assert Fence(sel).Some? ==> Fence(sel).value in DelegatedTenants(grants);
    }
    if Delegates(grants, InNamespace(Root)) {
      var g :| g in grants && g.capability == DelegateGrants && InNamespace(Root) in g.selectors;
      assert Reaches(InNamespace(Root), t);
    } else if t in DelegatedTenants(grants) {
      var g, sel :| g in grants && g.capability == DelegateGrants && sel in g.selectors && Fence(sel) == Some(t);
      assert Reaches(sel, t);
    }
  }

  lemma ScopeNext(before: seq<Grant>, sels: seq<Selector>, sel: Selector)
    ensures var was, now := before + [Grant(DelegateGrants, sels)], before + [Grant(DelegateGrants, sels + [sel])];
            && DelegatedTenants(now) == DelegatedTenants(was) + (if Fence(sel).Some? then {Fence(sel).value} else {})
            && (Delegates(now, InNamespace(Root)) <==> Delegates(was, InNamespace(Root)) || sel == InNamespace(Root))
  {
    var was, now := before + [Grant(DelegateGrants, sels)], before + [Grant(DelegateGrants, sels + [sel])];
    assert was[|before|] in was && now[|before|] in now;
    forall g, x | g in now && g.capability == DelegateGrants && x in g.selectors
      ensures x == sel || Delegates(was, x)
    {
      if g in before { assert g in was; }
    }
    forall g, x | g in was && g.capability == DelegateGrants && x in g.selectors ensures Delegates(now, x) {
      if g in before { assert g in now; }
    }
  }
}
