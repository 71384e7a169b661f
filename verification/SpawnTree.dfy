/**
 Process spawning as a transition system: system guests are bootstrapped, live
 processes start children, processes stop. Each event is one section under the
 lock of the authority table. A start resolves the child's tenant, validates its
 grants, enters its record without a parent, and links it to its parent only
 after the child's entrypoint has run. A stop takes the record out and puts it
 back if the teardown fails. The claims are about whole spawn trees, over every
 run.
 */
module SpawnTree {
  import opened Common
  import opened Authority

  type Pid = nat

  datatype Record = Record(grants: seq<Grant>, tenant: Option<string>, parent: Option<Pid>)

  /**
   A `ProcessStart` under way. `absent` is history: the parent's record was out of
   the table when the tenant was resolved.
   */
  datatype Call =
    | Resolved(p: Pid, tenant: Option<string>, absent: bool)
    | Validated(p: Pid, record: Record, absent: bool)
    | Entered(p: Pid, child: Pid)

  /**
   History: every process ever started with its parent, when it was entered, and
   the ones whose tenant was resolved without their parent's.
   */
  datatype Past = Past(born: map<Pid, Record>, ages: map<Pid, nat>, clock: nat, strays: set<Pid>)

  /** The authority table, the records taken out by stops under way, and the calls. */
  datatype State = State(live: map<Pid, Record>, leaving: map<Pid, Record>, calls: map<nat, Call>, past: Past)

  datatype Event =
    | Bootstrap(p: Pid, grants: seq<Grant>, tenant: Option<string>)
    | Resolve(call: nat, p: Pid, requested: Option<string>)
    | Validate(call: nat, grants: seq<Grant>)
    | Enter(call: nat, child: Pid)
    | Link(call: nat)
    | Fail(call: nat)
    | Leave(p: Pid)
    | Restore(p: Pid)
    | Forget(p: Pid)

  const START := State(map[], map[], map[], Past(map[], map[], 0, {}))

  // ---------------------------------------------------------------------
  // Admission of a child
  // ---------------------------------------------------------------------

  predicate Evaluatable(sel: Selector, g: Grant) {
    sel.UriPrefix? ==>
      OfClass(Quota.TcpListener) in g.selectors || OfClass(Quota.TcpStream) in g.selectors
      || OfClass(Quota.UdpSocket) in g.selectors
  }

  predicate WellFormed(g: Grant) {
    && (g.capability == DelegateGrants ==> exists sel | sel in g.selectors :: sel.Tenant? || sel.InNamespace?)
    && forall sel | sel in g.selectors :: Evaluatable(sel, g)
  }

  /** Provisioned at bootstrap only. */
  predicate Reserved(c: Capability) {
    c == DelegateGrants || c == MintCertificate || c == QuotaWrite
  }

  predicate InScope(scope: Scope, g: Grant) {
    match scope
    case RootWide => FencedSomewhere(g)
    case Tenants(names) => Fenced(g, names)
  }

  predicate CoveredBy(parent: seq<Grant>, g: Grant) {
    exists h | h in parent :: GrantCovers(h, g)
  }

  /** A child may hold these grants under a parent with those. */
  predicate MayHold(parent: seq<Grant>, grants: seq<Grant>) {
    && (forall g | g in grants :: !Reserved(g.capability))
    && ((ScopeOf(parent).Some? && forall g | g in grants :: InScope(ScopeOf(parent).value, g))
        || forall g | g in grants :: CoveredBy(parent, g))
  }

  /** A grant is in scope exactly when it is fenced to some tenant the scope admits. */
  lemma InScopeExactly(scope: Scope, g: Grant)
    ensures InScope(scope, g) <==> exists t :: AdmitsTenant(scope, t) && FencedTo(g, t)
  {
    if InScope(scope, g) {
      var sel :| sel in g.selectors && Fence(sel).Some? && (scope.Tenants? ==> Fence(sel).value in scope.names);
      assert AdmitsTenant(scope, Fence(sel).value) && FencedTo(g, Fence(sel).value);
    }
    if t :| AdmitsTenant(scope, t) && FencedTo(g, t) {
      var sel :| sel in g.selectors && (sel == Tenant(t) || sel == InNamespace(Named(t)));
      assert Fence(sel) == Some(t);
    }
  }

  /**
   What a child may hold: no capability that is provisioned at bootstrap, and
   either only grants fenced to tenants the parent may delegate to, or only grants
   the parent covers.
   */
  lemma MayHoldExactly(parent: seq<Grant>, grants: seq<Grant>)
    ensures MayHold(parent, grants) <==>
            && (forall g | g in grants ::
                  g.capability != DelegateGrants && g.capability != MintCertificate && g.capability != QuotaWrite)
            && ((forall g | g in grants :: exists t :: DelegatesTo(parent, t) && FencedTo(g, t))
                || (forall g | g in grants :: exists h | h in parent :: GrantCovers(h, g)))
  {
    forall g | g in grants
      ensures ScopeOf(parent).Some? && InScope(ScopeOf(parent).value, g) <==>
              exists t :: DelegatesTo(parent, t) && FencedTo(g, t)
    {
      ScopedExactly(parent, g);
    }
  }

  lemma ScopedExactly(parent: seq<Grant>, g: Grant)
    ensures ScopeOf(parent).Some? && InScope(ScopeOf(parent).value, g) <==>
            exists t :: DelegatesTo(parent, t) && FencedTo(g, t)
  {
    if ScopeOf(parent).Some? && InScope(ScopeOf(parent).value, g) {
      InScopeExactly(ScopeOf(parent).value, g);
      var t :| AdmitsTenant(ScopeOf(parent).value, t) && FencedTo(g, t);
      MayDelegateExactly(parent, t);
    }
    if t :| DelegatesTo(parent, t) && FencedTo(g, t) {
      MayDelegateExactly(parent, t);
      InScopeExactly(ScopeOf(parent).value, g);
    }
  }

  predicate FencedTo(g: Grant, t: string) {
    Tenant(t) in g.selectors || InNamespace(Named(t)) in g.selectors
  }

  predicate OverNetwork(class_: ResourceClass) {
    class_ == Quota.TcpListener || class_ == Quota.TcpStream || class_ == Quota.UdpSocket
  }

  /**
   The well-formed grants: one that delegates has a scope, and one over URIs is
   over network resources.
   */
  lemma WellFormedExactly(g: Grant)
    ensures WellFormed(g) <==>
            && (g.capability == DelegateGrants ==> ScopeOf([g]).Some?)
            && (HasPrefix(g) ==> exists class_ :: OverNetwork(class_) && OfClass(class_) in g.selectors)
  {
    assert g in [g];
    forall sel | sel in g.selectors && (sel.Tenant? || sel.InNamespace?) && g.capability == DelegateGrants
      ensures ScopeOf([g]).Some?
    {
      if Fence(sel).Some? {
        assert Fence(sel).value in DelegatedTenants([g]);
      } else {
        assert Delegates([g], InNamespace(Root));
      }
    }
    if DelegatedTenants([g]) != {} {
      var t :| t in DelegatedTenants([g]);
      var h, sel :| h in [g] && h.capability == DelegateGrants && sel in h.selectors && Fence(sel) == Some(t);
      assert h == g && (sel.Tenant? || sel.InNamespace?);
    }
    assert OverNetwork(Quota.TcpListener) && OverNetwork(Quota.TcpStream) && OverNetwork(Quota.UdpSocket);
  }

  /** A child may run under this tenant. */
  predicate MayRunAs(parent: Record, requested: Option<string>) {
    requested == None || requested == parent.tenant
    || (ScopeOf(parent.grants).Some? && AdmitsTenant(ScopeOf(parent.grants).value, requested.value))
  }

  function RunsAs(parent: Record, requested: Option<string>): Option<string> {
    if requested == None then parent.tenant else requested
  }

  /** `resolve_spawn_tenant` succeeds. Without a record only an inherited tenant does. */
  predicate Resolves(live: map<Pid, Record>, p: Pid, requested: Option<string>) {
    if p in live then MayRunAs(live[p], requested) else requested == None
  }

  predicate Enabled(s: State, e: Event) {
    match e
    case Bootstrap(p, grants, _) => p !in s.past.born && forall g | g in grants :: WellFormed(g)
    case Resolve(call, p, requested) => call !in s.calls && p in s.past.born && Resolves(s.live, p, requested)
    case Validate(call, grants) =>
      && call in s.calls && s.calls[call].Resolved? && s.calls[call].p in s.live
      && (forall g | g in grants :: WellFormed(g)) && MayHold(s.live[s.calls[call].p].grants, grants)
    case Enter(call, child) => call in s.calls && s.calls[call].Validated? && child !in s.past.born
    case Link(call) => call in s.calls && s.calls[call].Entered?
    case Fail(call) => call in s.calls
    case Leave(p) => p in s.live
    case Restore(p) => p in s.leaving
    case Forget(p) => p in s.leaving
  }

  /** The history once `p` is born with record `r`. */
  function Birth(past: Past, p: Pid, r: Record, stray: bool): Past {
    Past(past.born[p := r], past.ages[p := past.clock], past.clock + 1,
         if stray then past.strays + {p} else past.strays)
  }

  /** A record is born with the parent it will be linked to, and is live without it. */
  function Start(s: State, p: Pid, r: Record, stray: bool): State {
    s.(live := s.live[p := r.(parent := None)], past := Birth(s.past, p, r, stray))
  }

  /** The tenant of a process that has one was lost on its child. */
  predicate Strays(born: map<Pid, Record>, call: Call) {
    call.Validated? && call.absent && call.p in born && born[call.p].tenant.Some?
  }

  function Apply(s: State, e: Event): State
    requires Enabled(s, e)
  {
    match e
    case Bootstrap(p, grants, tenant) => Start(s, p, Record(grants, tenant, None), false)
    case Resolve(call, p, requested) =>
      s.(calls := s.calls[call := if p in s.live then Resolved(p, RunsAs(s.live[p], requested), false)
                                  else Resolved(p, None, true)])
    case Validate(call, grants) =>
      var c := s.calls[call];
      s.(calls := s.calls[call := Validated(c.p, Record(grants, c.tenant, Some(c.p)), c.absent)])
    case Enter(call, child) =>
      var c := s.calls[call];
      Start(s, child, c.record, Strays(s.past.born, c)).(calls := s.calls[call := Entered(c.p, child)])
    case Link(call) =>
      var c := s.calls[call];
      s.(calls := s.calls - {call},
         live := if c.child in s.live then s.live[c.child := s.live[c.child].(parent := Some(c.p))] else s.live)
    case Fail(call) => s.(calls := s.calls - {call})
    case Leave(p) => s.(live := s.live - {p}, leaving := s.leaving[p := s.live[p]])
    case Restore(p) => s.(live := s.live[p := s.leaving[p]], leaving := s.leaving - {p})
    case Forget(p) => s.(leaving := s.leaving - {p})
  }

  predicate IsRun(es: seq<Event>) {
    es == [] || (IsRun(es[..|es| - 1]) && Enabled(After(es[..|es| - 1]), es[|es| - 1]))
  }

  function After(es: seq<Event>): State {
    if es == [] then START
    else
      var s := After(es[..|es| - 1]);
      if Enabled(s, es[|es| - 1]) then Apply(s, es[|es| - 1]) else s
  }

  // ---------------------------------------------------------------------
  // The invariant
  // ---------------------------------------------------------------------

  /** The child runs under its parent's tenant or one in the parent's scope. */
  predicate TenantRooted(parent: Record, tenant: Option<string>) {
    tenant == parent.tenant
    || (tenant.Some? && ScopeOf(parent.grants).Some? && AdmitsTenant(ScopeOf(parent.grants).value, tenant.value))
  }

  /** The process was admitted by an older parent, which gave it a tenant unless it strayed. */
  predicate LinkOk(past: Past, x: Pid) {
    && x in past.born && x in past.ages && past.ages[x] < past.clock
    && (past.born[x].parent.None? ==> x !in past.strays)
    && (past.born[x].parent.Some? ==>
          var p := past.born[x].parent.value;
          && p in past.born && p in past.ages && past.ages[p] < past.ages[x]
          && MayHold(past.born[p].grants, past.born[x].grants)
          && (x in past.strays <==> !TenantRooted(past.born[p], past.born[x].tenant)))
  }

  /** The record of a process that was born, linked or not yet. */
  predicate RecordOk(born: map<Pid, Record>, x: Pid, r: Record) {
    x in born && (r == born[x] || r == born[x].(parent := None))
  }

  /** The tenant is the parent's to give, or the parent's record was absent and has one. */
  predicate TenantOk(parent: Record, tenant: Option<string>, absent: bool) {
    if absent then tenant.None? else TenantRooted(parent, tenant)
  }

  predicate CallOk(born: map<Pid, Record>, c: Call) {
    && c.p in born
    && match c
       case Resolved(p, tenant, absent) => TenantOk(born[p], tenant, absent)
       case Validated(p, r, absent) =>
         r.parent == Some(p) && MayHold(born[p].grants, r.grants) && TenantOk(born[p], r.tenant, absent)
       case Entered(p, child) => child in born && born[child].parent == Some(p)
  }

  predicate RecordsOk(born: map<Pid, Record>, records: map<Pid, Record>) {
    forall x | x in records :: RecordOk(born, x, records[x])
  }

  predicate CallsOk(born: map<Pid, Record>, calls: map<nat, Call>) {
    forall c | c in calls :: CallOk(born, calls[c])
  }

  predicate LinksOk(past: Past) {
    (forall x | x in past.born :: LinkOk(past, x)) && past.strays <= past.born.Keys
  }

  predicate TreeOk(s: State) {
    && LinksOk(s.past) && RecordsOk(s.past.born, s.live) && RecordsOk(s.past.born, s.leaving)
    && CallsOk(s.past.born, s.calls)
  }

  lemma LinksGrow(past: Past, p: Pid, r: Record, stray: bool)
    requires LinksOk(past) && p !in past.born && (r.parent.None? ==> !stray)
    requires r.parent.Some? ==>
               && r.parent.value in past.born && MayHold(past.born[r.parent.value].grants, r.grants)
               && (stray <==> !TenantRooted(past.born[r.parent.value], r.tenant))
    ensures LinksOk(Birth(past, p, r, stray))
  {
    var now := Birth(past, p, r, stray);
    forall x | x in now.born ensures LinkOk(now, x) {
      if x != p {
        assert LinkOk(past, x);
      } else if r.parent.Some? {
        assert LinkOk(past, r.parent.value);
      }
    }
  }

  lemma RecordsGrow(born: map<Pid, Record>, p: Pid, r: Record, records: map<Pid, Record>)
    requires RecordsOk(born, records) && p !in born
    ensures RecordsOk(born[p := r], records) && RecordsOk(born[p := r], records[p := r.(parent := None)])
  {
    forall x | x in records ensures RecordOk(born[p := r], x, records[x]) {
      assert RecordOk(born, x, records[x]);
    }
  }

  lemma CallsGrow(born: map<Pid, Record>, p: Pid, r: Record, calls: map<nat, Call>)
    requires CallsOk(born, calls) && p !in born
    ensures CallsOk(born[p := r], calls)
  {
    forall c | c in calls ensures CallOk(born[p := r], calls[c]) {
      assert CallOk(born, calls[c]);
    }
  }

  lemma TreeBootstrap(s: State, p: Pid, grants: seq<Grant>, tenant: Option<string>)
    requires TreeOk(s) && p !in s.past.born
    ensures TreeOk(Start(s, p, Record(grants, tenant, None), false))
  {
    var r := Record(grants, tenant, None);
    LinksGrow(s.past, p, r, false);
    RecordsGrow(s.past.born, p, r, s.live);
    RecordsGrow(s.past.born, p, r, s.leaving);
    CallsGrow(s.past.born, p, r, s.calls);
  }

  lemma TreeEnter(s: State, call: nat, child: Pid)
    requires TreeOk(s) && Enabled(s, Enter(call, child))
    ensures TreeOk(Apply(s, Enter(call, child)))
  {
    var c := s.calls[call];
    assert CallOk(s.past.born, c);
    LinksGrow(s.past, child, c.record, Strays(s.past.born, c));
    RecordsGrow(s.past.born, child, c.record, s.live);
    RecordsGrow(s.past.born, child, c.record, s.leaving);
    CallsGrow(s.past.born, child, c.record, s.calls);
    CallPut(s.past.born[child := c.record], s.calls, call, Entered(c.p, child));
  }

  lemma CallPut(born: map<Pid, Record>, calls: map<nat, Call>, call: nat, c: Call)
    requires CallsOk(born, calls) && CallOk(born, c)
    ensures CallsOk(born, calls[call := c])
  {
  }

  lemma TreeResolve(s: State, call: nat, p: Pid, requested: Option<string>)
    requires TreeOk(s) && Enabled(s, Resolve(call, p, requested))
    ensures TreeOk(Apply(s, Resolve(call, p, requested)))
  {
    assert p in s.live ==> RecordOk(s.past.born, p, s.live[p]);
    CallPut(s.past.born, s.calls, call, Apply(s, Resolve(call, p, requested)).calls[call]);
  }

  lemma TreeValidate(s: State, call: nat, grants: seq<Grant>)
    requires TreeOk(s) && Enabled(s, Validate(call, grants))
    ensures TreeOk(Apply(s, Validate(call, grants)))
  {
    var c := s.calls[call];
    assert CallOk(s.past.born, c) && RecordOk(s.past.born, c.p, s.live[c.p]);
    CallPut(s.past.born, s.calls, call, Apply(s, Validate(call, grants)).calls[call]);
  }

  lemma TreeLink(s: State, call: nat)
    requires TreeOk(s) && Enabled(s, Link(call))
    ensures TreeOk(Apply(s, Link(call)))
  {
    var c := s.calls[call];
    assert CallOk(s.past.born, c);
    if c.child in s.live {
      assert RecordOk(s.past.born, c.child, s.live[c.child]);
    }
  }

  lemma TreeStep(s: State, e: Event)
    requires TreeOk(s) && Enabled(s, e)
    ensures TreeOk(Apply(s, e))
  {
    match e
    case Bootstrap(p, grants, tenant) => TreeBootstrap(s, p, grants, tenant);
    case Resolve(call, p, requested) => TreeResolve(s, call, p, requested);
    case Validate(call, grants) => TreeValidate(s, call, grants);
    case Enter(call, child) => TreeEnter(s, call, child);
    case Link(call) => TreeLink(s, call);
    case Fail(_) =>
    case Leave(_) =>
    case Restore(_) =>
    case Forget(_) =>
  }

  lemma {:induction false} TreeAlways(es: seq<Event>)
    requires IsRun(es)
    ensures TreeOk(After(es))
  {
    if es != [] {
      TreeAlways(es[..|es| - 1]);
      TreeStep(After(es[..|es| - 1]), es[|es| - 1]);
    }
  }

  /** Some run ends in `s`. */
  ghost predicate Reachable(s: State) {
    exists es :: IsRun(es) && After(es) == s
  }

  lemma ReachStart()
    ensures Reachable(START)
  {
    assert IsRun([]) && After([]) == START;
  }

  lemma ReachNext(s: State, e: Event)
    requires Reachable(s) && Enabled(s, e)
    ensures Reachable(Apply(s, e))
  {
    var es :| IsRun(es) && After(es) == s;
    var fs := es + [e];
    assert fs[..|fs| - 1] == es;
    assert IsRun(fs) && After(fs) == Apply(s, e);
  }

  ghost predicate Stepped(s: State, e: Event, r: State) {
    Enabled(s, e) && Apply(s, e) == r
  }

  /** What holds of a state holds after every event. */
  ghost predicate Closed(reach: State -> bool) {
    forall s, e, r {:trigger reach(s), Stepped(s, e, r)} :: reach(s) && Stepped(s, e, r) ==> reach(r)
  }

  lemma ReachableClosed(reach: State -> bool)
    requires forall s :: reach(s) <==> Reachable(s)
    ensures Closed(reach) && reach(START)
  {
    forall s, e, r | reach(s) && Stepped(s, e, r) ensures reach(r) {
      ReachNext(s, e);
    }
    ReachStart();
  }

  lemma ReachTree(s: State)
    requires Reachable(s)
    ensures TreeOk(s)
  {
    var es :| IsRun(es) && After(es) == s;
    TreeAlways(es);
  }

  // ---------------------------------------------------------------------
  // Whole trees
  // ---------------------------------------------------------------------

  /** `path[0]` descends from the last of `path`, link by link. */
  predicate Lineage(table: map<Pid, Record>, path: seq<Pid>) {
    && path != [] && (forall x | x in path :: x in table)
    && forall i | 0 <= i < |path| - 1 :: table[path[i]].parent == Some(path[i + 1])
  }

  /** No process that was spawned, by anyone, holds a bootstrap-only capability. */
  lemma SpawnedNeverReserved(es: seq<Event>, x: Pid, g: Grant)
    requires IsRun(es) && x in After(es).past.born
    requires After(es).past.born[x].parent.Some? && g in After(es).past.born[x].grants
    ensures g.capability != DelegateGrants && g.capability != MintCertificate && g.capability != QuotaWrite
  {
    TreeAlways(es);
    assert LinkOk(After(es).past, x);
  }

  /**
   In every run, a spawned process that holds a grant its parent does not cover
   holds only grants fenced to tenants its parent may delegate to.
   */
  lemma UncoveredMeansFenced(es: seq<Event>, x: Pid, g: Grant, other: Grant)
    requires IsRun(es) && x in After(es).past.born && After(es).past.born[x].parent.Some?
    requires g in After(es).past.born[x].grants && other in After(es).past.born[x].grants
    ensures After(es).past.born[x].parent.value in After(es).past.born
    ensures var parent := After(es).past.born[After(es).past.born[x].parent.value].grants;
            (exists h | h in parent :: GrantCovers(h, g)) || exists t :: DelegatesTo(parent, t) && FencedTo(other, t)
  {
    TreeAlways(es);
    var born := After(es).past.born;
    assert LinkOk(After(es).past, x);
    MayHoldExactly(born[born[x].parent.value].grants, born[x].grants);
  }

  predicate AllFormed(grants: seq<Grant>) {
    forall g | g in grants :: WellFormed(g)
  }

  predicate FormedOk(s: State) {
    && (forall x | x in s.past.born :: AllFormed(s.past.born[x].grants))
    && (forall c | c in s.calls && s.calls[c].Validated? :: AllFormed(s.calls[c].record.grants))
  }

  lemma FormedStep(s: State, e: Event)
    requires FormedOk(s) && Enabled(s, e)
    ensures FormedOk(Apply(s, e))
  {
    var r := Apply(s, e);
    forall x | x in r.past.born ensures AllFormed(r.past.born[x].grants) {
      assert x in s.past.born ==> AllFormed(s.past.born[x].grants);
    }
  }

  lemma {:induction false} FormedAlways(es: seq<Event>)
    requires IsRun(es)
    ensures FormedOk(After(es))
  {
    if es != [] {
      FormedAlways(es[..|es| - 1]);
      FormedStep(After(es[..|es| - 1]), es[|es| - 1]);
    }
  }

  /** No process, bootstrapped or spawned, ever holds a grant over URIs that allows anything but network resources. */
  lemma PrefixesStayOnNetwork(es: seq<Event>, x: Pid, g: Grant, c: Context, uri: (string, string) -> bool, kin: bool)
    requires IsRun(es) && x in After(es).past.born && g in After(es).past.born[x].grants
    requires HasPrefix(g) && Allows(g, c, uri, kin)
    ensures c.class_.Some? && OverNetwork(c.class_.value)
  {
    FormedAlways(es);
    assert AllFormed(After(es).past.born[x].grants);
    WellFormedExactly(g);
    var class_ :| OverNetwork(class_) && OfClass(class_) in g.selectors;
    assert Matches(OfClass(class_), c, uri, kin);
  }

  lemma ReservedOnlyDelegate(grants: seq<Grant>)
    requires forall g | g in grants :: !Reserved(g.capability)
    ensures ScopeOf(grants) == None
  {
  }

  /** A fence survives further covering. */
  lemma FenceInherited(scope: Scope, h: Grant, g: Grant)
    requires InScope(scope, h) && GrantCovers(h, g)
    ensures InScope(scope, g)
  {
    var sel :| sel in h.selectors && Fence(sel).Some? && (scope.Tenants? ==> Fence(sel).value in scope.names);
    assert Narrowed(sel, g);
    var low :| low in g.selectors && SelectorCovers(sel, low);
    assert Fence(low) == Fence(sel);
  }

  /** Where a descendant's grant comes from. */
  predicate Rooted(parent: seq<Grant>, g: Grant) {
    CoveredBy(parent, g) || (ScopeOf(parent).Some? && InScope(ScopeOf(parent).value, g))
  }

  lemma {:induction false} TreeRooted(past: Past, path: seq<Pid>, g: Grant)
    requires LinksOk(past) && Lineage(past.born, path) && |path| >= 2
    requires g in past.born[path[0]].grants
    ensures Rooted(past.born[path[|path| - 1]].grants, g)
    decreases |path|
  {
    assert path[0] in path && path[1] in path;
    assert LinkOk(past, path[0]);
    if |path| > 2 {
      assert path[2] in path && LinkOk(past, path[1]);
      var mid, top := past.born[path[1]].grants, past.born[path[|path| - 1]].grants;
      ReservedOnlyDelegate(mid);
      assert CoveredBy(mid, g);
      var h :| h in mid && GrantCovers(h, g);
      TreeRooted(past, path[1..], h);
      if CoveredBy(top, h) {
        var k :| k in top && GrantCovers(k, h);
        CoversTransitive(k, h, g);
      } else {
        FenceInherited(ScopeOf(top).value, h, g);
      }
    }
  }

  lemma {:induction false} TreeTenants(past: Past, path: seq<Pid>)
    requires LinksOk(past) && Lineage(past.born, path) && |path| >= 2
    requires forall i | 0 <= i < |path| - 1 :: path[i] !in past.strays
    ensures TenantRooted(past.born[path[|path| - 1]], past.born[path[0]].tenant)
    decreases |path|
  {
    assert path[0] in path && path[1] in path;
    assert LinkOk(past, path[0]);
    if |path| > 2 {
      assert path[2] in path && LinkOk(past, path[1]);
      ReservedOnlyDelegate(past.born[path[1]].grants);
      TreeTenants(past, path[1..]);
    }
  }

  /**
   The delegation fence. Below any process, bootstrapped or spawned, every grant
   of every descendant is covered by a grant of that process or carries a tenant
   selector within its delegation scope; every descendant runs under that
   process's tenant or one in its scope, unless a process on the way strayed.
   */
  lemma DelegationFence(es: seq<Event>, path: seq<Pid>, g: Grant)
    requires IsRun(es) && Lineage(After(es).past.born, path) && |path| >= 2
    ensures var past := After(es).past;
            var bottom, top := past.born[path[0]], past.born[path[|path| - 1]];
            && (g in bottom.grants ==> Rooted(top.grants, g))
            && ((forall i | 0 <= i < |path| - 1 :: path[i] !in past.strays) ==> TenantRooted(top, bottom.tenant))
  {
    TreeAlways(es);
    var past := After(es).past;
    if g in past.born[path[0]].grants {
      TreeRooted(past, path, g);
    }
    if forall i | 0 <= i < |path| - 1 :: path[i] !in past.strays {
      TreeTenants(past, path);
    }
  }

  /** Every descendant of every process runs under that process's tenant or one in its scope. */
  ghost predicate TenantsFenced(born: map<Pid, Record>) {
    forall path | Lineage(born, path) && |path| >= 2 :: TenantRooted(born[path[|path| - 1]], born[path[0]].tenant)
  }

  /**
   The tenants are fenced exactly when no child was entered whose tenant was
   resolved while the record of its parent, a process with a tenant, was out of
   the table.
   */
  lemma TenantsExactly(es: seq<Event>)
    requires IsRun(es)
    ensures TenantsFenced(After(es).past.born) <==> After(es).past.strays == {}
  {
    TreeAlways(es);
    var past := After(es).past;
    if past.strays == {} {
      forall path | Lineage(past.born, path) && |path| >= 2
        ensures TenantRooted(past.born[path[|path| - 1]], past.born[path[0]].tenant)
      {
        TreeTenants(past, path);
      }
    } else {
      var x :| x in past.strays;
      assert LinkOk(past, x);
      var path := [x, past.born[x].parent.value];
      assert Lineage(past.born, path) && |path| >= 2;
      assert !TenantRooted(past.born[path[|path| - 1]], past.born[path[0]].tenant);
    }
  }

  /**
   What the fence means for contexts: below a process that may delegate to the
   tenants `names`, a descendant's grant allows only contexts of those tenants,
   or is covered by a grant of the process.
   */
  lemma FenceConfines(es: seq<Event>, path: seq<Pid>, g: Grant, names: set<string>, c: Context,
                      uri: (string, string) -> bool, kin: bool)
    requires IsRun(es) && Lineage(After(es).past.born, path) && |path| >= 2
    requires ScopeOf(After(es).past.born[path[|path| - 1]].grants) == Some(Tenants(names))
    requires g in After(es).past.born[path[0]].grants && Allows(g, c, uri, kin)
    ensures CoveredBy(After(es).past.born[path[|path| - 1]].grants, g) || (c.tenant.Some? && c.tenant.value in names)
  {
    DelegationFence(es, path, g);
    if Fenced(g, names) {
      var sel :| sel in g.selectors && Fence(sel).Some? && Fence(sel).value in names;
      assert Matches(sel, c, uri, kin);
    }
  }
}
