/**
 Children selectors and the parent links behind them. A start records the link
 only after the child's entrypoint has run, and a stop takes a process out of the
 middle of a chain; this module says exactly when kin of a process are still kin
 of a process above it.
 */
module Kinship {
  import opened Common
  import opened Authority
  import opened SpawnTree

  /** `x` is below `p` in the table; `p` itself need not be in it. */
  predicate Leads(table: map<Pid, Record>, path: seq<Pid>, x: Pid, p: Pid) {
    Lineage(table, path) && path[0] == x && table[path[|path| - 1]].parent == Some(p)
  }

  ghost predicate Descends(table: map<Pid, Record>, x: Pid, p: Pid) {
    exists path :: Leads(table, path, x, p)
  }

  ghost predicate Kin(table: map<Pid, Record>, p: Pid, id: Option<Identity>) {
    id.Some? && id.value.Local? && Descends(table, id.value.handle, p)
  }

  ghost predicate Authorises(table: map<Pid, Record>, p: Pid, cap: Capability, c: Context,
                             uri: (string, string) -> bool)
  {
    p in table && exists g | g in table[p].grants :: g.capability == cap && Allows(g, c, uri, Kin(table, p, c.id))
  }

  // ---------------------------------------------------------------------
  // Chains of links
  // ---------------------------------------------------------------------

  /** Every link of the path is recorded; its last process need not be in the table. */
  predicate Linked(table: map<Pid, Record>, path: seq<Pid>) {
    forall i | 0 <= i < |path| - 1 :: path[i] in table && table[path[i]].parent == Some(path[i + 1])
  }

  lemma KinUp(table: map<Pid, Record>, path: seq<Pid>, x: Pid)
    requires path != [] && Linked(table, path) && Descends(table, x, path[0])
    ensures Descends(table, x, path[|path| - 1])
  {
    var below :| Leads(table, below, x, path[0]);
    if |path| > 1 {
      var all := below + path[..|path| - 1];
      forall i | 0 <= i < |all| ensures all[i] in table {
        if i >= |below| { assert all[i] == path[i - |below|]; } else { assert all[i] in below; }
      }
      forall i | 0 <= i < |all| - 1 ensures table[all[i]].parent == Some(all[i + 1]) {
        if i >= |below| { assert all[i] == path[i - |below|] && all[i + 1] == path[i - |below| + 1]; }
      }
      assert all[|all| - 1] == path[|path| - 2];
      assert Leads(table, all, x, path[|path| - 1]);
    }
  }

  /** Links of the table were given at birth. */
  lemma LineageBorn(s: State, path: seq<Pid>)
    requires TreeOk(s) && Lineage(s.live, path)
    ensures Lineage(s.past.born, path)
  {
    forall x | x in path ensures x in s.past.born {
      assert RecordOk(s.past.born, x, s.live[x]);
    }
    forall i | 0 <= i < |path| - 1 ensures s.past.born[path[i]].parent == Some(path[i + 1]) {
      assert path[i] in path && RecordOk(s.past.born, path[i], s.live[path[i]]);
    }
  }

  /** Ancestors are older, so a lineage never repeats a process. */
  lemma {:induction false} LineageAges(past: Past, path: seq<Pid>, i: nat, j: nat)
    requires LinksOk(past) && Lineage(past.born, path) && i < j < |path|
    ensures path[j] in past.ages && path[i] in past.ages && past.ages[path[j]] < past.ages[path[i]]
    decreases j
  {
    assert path[j - 1] in path && LinkOk(past, path[j - 1]);
    if i < j - 1 {
      LineageAges(past, path, i, j - 1);
    }
  }

  /** Two walks up from the same process agree as far as both go. */
  lemma {:induction false} WalksAgree(table: map<Pid, Record>, a: seq<Pid>, b: seq<Pid>, i: nat)
    requires Lineage(table, a) && Lineage(table, b) && a[0] == b[0] && i < |a| && i < |b|
    ensures a[i] == b[i]
  {
    if i > 0 {
      WalksAgree(table, a, b, i - 1);
    }
  }

  /** Two walks between the same processes are the same walk. */
  lemma WalksEqual(past: Past, a: seq<Pid>, b: seq<Pid>)
    requires LinksOk(past) && Lineage(past.born, a) && Lineage(past.born, b)
    requires a[0] == b[0] && a[|a| - 1] == b[|b| - 1]
    ensures a == b
  {
    var n := if |a| <= |b| then |a| else |b|;
    forall i | 0 <= i < n ensures a[i] == b[i] {
      WalksAgree(past.born, a, b, i);
    }
    if |a| < |b| {
      LineageAges(past, b, |a| - 1, |b| - 1);
    } else if |b| < |a| {
      LineageAges(past, a, |b| - 1, |a| - 1);
    }
  }

  /** The walk that shows `x` below `p`, with `p` at its end, as births gave it. */
  lemma WalkBorn(s: State, path: seq<Pid>, x: Pid, p: Pid)
    requires TreeOk(s) && Leads(s.live, path, x, p)
    ensures Lineage(s.past.born, path + [p])
  {
    LineageBorn(s, path);
    var n := |path| - 1;
    assert path[n] in path && RecordOk(s.past.born, path[n], s.live[path[n]]) && LinkOk(s.past, path[n]);
    var all := path + [p];
    forall i | 0 <= i < |all| - 1 ensures s.past.born[all[i]].parent == Some(all[i + 1]) {
      assert i < n ==> all[i] == path[i] && all[i + 1] == path[i + 1];
    }
  }

  lemma LineageJoin(born: map<Pid, Record>, a: seq<Pid>, b: seq<Pid>)
    requires Lineage(born, a) && Lineage(born, b) && a[|a| - 1] == b[0]
    ensures Lineage(born, a[..|a| - 1] + b)
  {
    var n, all := |a| - 1, a[..|a| - 1] + b;
    forall x | x in all ensures x in born {
      assert x in a || x in b;
    }
    forall i | 0 <= i < |all| - 1 ensures born[all[i]].parent == Some(all[i + 1]) {
      if i < n {
        assert all[i] == a[i] && all[i + 1] == a[i + 1];
      } else {
        assert all[i] == b[i - n] && all[i + 1] == b[i - n + 1];
      }
    }
  }

  /** The links of a walk are links of its tail. */
  lemma TailLinked(table: map<Pid, Record>, low: seq<Pid>, path: seq<Pid>, high: seq<Pid>)
    requires path != [] && high != [] && Leads(table, high, high[0], path[|path| - 1])
    requires low + path == high + [path[|path| - 1]]
    ensures Linked(table, path)
  {
    forall i | 0 <= i < |path| - 1 ensures path[i] in table && table[path[i]].parent == Some(path[i + 1]) {
      var k := |low| + i;
      assert path[i] == (low + path)[k] == high[k] && high[k] in high;
      assert path[i + 1] == (low + path)[k + 1] == (high + [path[|path| - 1]])[k + 1];
    }
  }

  /** A process below both ends of a path forces every link of the path. */
  lemma BelowBoth(s: State, path: seq<Pid>, x: Pid)
    requires TreeOk(s) && Lineage(s.past.born, path)
    requires Descends(s.live, x, path[0]) && Descends(s.live, x, path[|path| - 1])
    ensures Linked(s.live, path)
  {
    var top := path[|path| - 1];
    var low :| Leads(s.live, low, x, path[0]);
    var high :| Leads(s.live, high, x, top);
    WalkBorn(s, low, x, path[0]);
    WalkBorn(s, high, x, top);
    LineageJoin(s.past.born, low + [path[0]], path);
    assert (low + [path[0]])[..|low|] == low;
    WalksEqual(s.past, low + path, high + [top]);
    TailLinked(s.live, low, path, high);
  }

  // ---------------------------------------------------------------------
  // Kin of a process and of a process above it
  // ---------------------------------------------------------------------

  /** Every link of the path is recorded, or nobody is below its first process. */
  ghost predicate KinPasses(table: map<Pid, Record>, path: seq<Pid>)
    requires path != []
  {
    Linked(table, path) || forall x :: !Descends(table, x, path[0])
  }

  /**
   Along any lineage, in every run: whoever is kin of its first process is kin of
   its last if and only if every process in between is live and linked to its
   parent, or the first process has no kin.
   */
  lemma KinExactly(es: seq<Event>, path: seq<Pid>)
    requires IsRun(es) && Lineage(After(es).past.born, path)
    ensures var live := After(es).live;
            (forall id :: Kin(live, path[0], id) ==> Kin(live, path[|path| - 1], id)) <==> KinPasses(live, path)
  {
    TreeAlways(es);
    var s, top := After(es), path[|path| - 1];
    if KinPasses(s.live, path) {
      forall id | Kin(s.live, path[0], id) ensures Kin(s.live, top, id) {
        KinUp(s.live, path, id.value.handle);
      }
    } else {
      var x :| Descends(s.live, x, path[0]);
      if forall id :: Kin(s.live, path[0], id) ==> Kin(s.live, top, id) {
        assert Kin(s.live, path[0], Some(Local(x)));
        BelowBoth(s, path, x);
      }
    }
  }

  /**
   Authority is monotone: a descendant of a live process that cannot delegate
   and whose grants name neither the root namespace nor, under a matcher that is
   not monotone, URI prefixes is authorised for nothing that the ancestor is not, unless the ancestor's grants
   speak of children and kin do not pass up the lineage.
   */
  lemma AuthorityMonotone(es: seq<Event>, path: seq<Pid>, cap: Capability, c: Context, uri: (string, string) -> bool)
    requires IsRun(es) && Lineage(After(es).past.born, path) && path[|path| - 1] in After(es).live
    requires var top := After(es).live[path[|path| - 1]].grants;
             && ScopeOf(top) == None && (forall h | h in top :: !HasRoot(h) && (HasPrefix(h) ==> Monotone(uri)))
             && (KinPasses(After(es).live, path) || forall h | h in top :: Children !in h.selectors)
    requires Authorises(After(es).live, path[0], cap, c, uri)
    ensures Authorises(After(es).live, path[|path| - 1], cap, c, uri)
  {
    TreeAlways(es);
    var s := After(es);
    var top := path[|path| - 1];
    if |path| > 1 {
      var g :| g in s.live[path[0]].grants && g.capability == cap && Allows(g, c, uri, Kin(s.live, path[0], c.id));
      assert RecordOk(s.past.born, path[0], s.live[path[0]]) && RecordOk(s.past.born, top, s.live[top]);
      TreeRooted(s.past, path, g);
      var h :| h in s.live[top].grants && GrantCovers(h, g);
      KinExactly(es, path);
      CoversSound(h, g, c, uri, Kin(s.live, top, c.id), Kin(s.live, path[0], c.id));
    }
  }

  /** A grant over children and nothing else. */
  function OverChildren(cap: Capability): seq<Grant> {
    [Grant(cap, [Children])]
  }

  lemma OverChildrenMeans(table: map<Pid, Record>, p: Pid, cap: Capability, c: Context, uri: (string, string) -> bool)
    requires p in table && table[p].grants == OverChildren(cap)
    ensures Authorises(table, p, cap, c, uri) <==> Kin(table, p, c.id)
  {
    var g := OverChildren(cap)[0];
    assert g in table[p].grants && Children in g.selectors;
    if Kin(table, p, c.id) {
      assert Allows(g, c, uri, true);
    } else {
      assert !Matches(Children, c, uri, false);
    }
  }

  lemma SameOver(table: map<Pid, Record>, p: Pid, q: Pid, cap: Capability, uri: (string, string) -> bool)
    requires p in table && table[p].grants == OverChildren(cap)
    requires q in table && table[q].grants == OverChildren(cap)
    ensures (forall c :: Authorises(table, p, cap, c, uri) ==> Authorises(table, q, cap, c, uri))
            <==> forall id :: Kin(table, p, id) ==> Kin(table, q, id)
  {
    if forall id :: Kin(table, p, id) ==> Kin(table, q, id) {
      forall c | Authorises(table, p, cap, c, uri) ensures Authorises(table, q, cap, c, uri) {
        OverChildrenMeans(table, p, cap, c, uri);
        OverChildrenMeans(table, q, cap, c, uri);
      }
    } else {
      var id :| Kin(table, p, id) && !Kin(table, q, id);
      var c := Context(None, None, Any, None, id);
      OverChildrenMeans(table, p, cap, c, uri);
      OverChildrenMeans(table, q, cap, c, uri);
    }
  }

  /**
   The condition cannot be weakened: two live processes of a lineage with the same
   grant over children are authorised monotonically exactly when kin pass.
   */
  lemma ChildrenExactly(es: seq<Event>, path: seq<Pid>, cap: Capability, uri: (string, string) -> bool)
    requires IsRun(es) && Lineage(After(es).past.born, path)
    requires var live := After(es).live;
             && path[0] in live && live[path[0]].grants == OverChildren(cap)
             && path[|path| - 1] in live && live[path[|path| - 1]].grants == OverChildren(cap)
    ensures var live, top := After(es).live, path[|path| - 1];
            (forall c :: Authorises(live, path[0], cap, c, uri) ==> Authorises(live, top, cap, c, uri))
            <==> KinPasses(live, path)
  {
    KinExactly(es, path);
    SameOver(After(es).live, path[0], path[|path| - 1], cap, uri);
  }
}
