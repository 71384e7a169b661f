/** Reachable spawn trees in which kin do not pass, and one in which a tenant is lost. */
module SpawnRuns {
  import opened Common
  import opened Authority
  import opened SpawnTree
  import opened Kinship

  const OVER := OverChildren(ProcessLifecycle)

  /** The record of a process over its children, started by `parent`. */
  function Entry(parent: Option<Pid>): Record {
    Record(OVER, None, parent)
  }

  /** A child may always hold what its parent holds, but for the bootstrap-only capabilities. */
  lemma MayHoldOwn(grants: seq<Grant>)
    requires forall g | g in grants :: !Reserved(g.capability)
    ensures MayHold(grants, grants)
  {
    forall g | g in grants ensures CoveredBy(grants, g) {
      CoversReflexive(g);
    }
  }

  lemma OverHolds()
    ensures MayHold(OVER, OVER) && forall g | g in OVER :: WellFormed(g)
  {
    MayHoldOwn(OVER);
  }

  // ---------------------------------------------------------------------
  // Starting a child that holds the same grants
  // ---------------------------------------------------------------------

  predicate CanStart(s: State, call: nat, p: Pid, child: Pid) {
    && p in s.live && p in s.past.born && call !in s.calls && child !in s.past.born
    && s.live[p].grants == OVER && s.live[p].tenant == None
  }

  function Calling(s: State, call: nat, c: Call): State {
    s.(calls := s.calls[call := c])
  }

  /** The child has been entered and is not linked yet. */
  function WithChild(s: State, call: nat, p: Pid, child: Pid): State {
    Calling(Start(s, child, Entry(Some(p)), false), call, Entered(p, child))
  }

  /** The child is linked. */
  function WithLinked(s: State, p: Pid, child: Pid): State {
    s.(live := s.live[child := Entry(Some(p))], past := Birth(s.past, child, Entry(Some(p)), false))
  }

  lemma StartResolves(s: State, call: nat, p: Pid, child: Pid)
    requires CanStart(s, call, p, child)
    ensures Stepped(s, Resolve(call, p, None), Calling(s, call, Resolved(p, None, false)))
  {
  }

  lemma StartValidates(s: State, call: nat, p: Pid, child: Pid)
    requires CanStart(s, call, p, child)
    ensures Stepped(Calling(s, call, Resolved(p, None, false)), Validate(call, OVER),
                    Calling(s, call, Validated(p, Entry(Some(p)), false)))
  {
    OverHolds();
    assert s.calls[call := Resolved(p, None, false)][call := Validated(p, Entry(Some(p)), false)]
           == s.calls[call := Validated(p, Entry(Some(p)), false)];
  }

  lemma StartEnters(s: State, call: nat, p: Pid, child: Pid)
    requires CanStart(s, call, p, child)
    ensures Stepped(Calling(s, call, Validated(p, Entry(Some(p)), false)), Enter(call, child),
                    WithChild(s, call, p, child))
  {
    assert s.calls[call := Validated(p, Entry(Some(p)), false)][call := Entered(p, child)]
           == s.calls[call := Entered(p, child)];
  }

  lemma StartLinks(s: State, call: nat, p: Pid, child: Pid)
    requires CanStart(s, call, p, child)
    ensures Stepped(WithChild(s, call, p, child), Link(call), WithLinked(s, p, child))
  {
    var m := WithChild(s, call, p, child);
    assert m.calls - {call} == s.calls;
    assert m.live[child := m.live[child].(parent := Some(p))] == s.live[child := Entry(Some(p))];
  }

  lemma Enters(reach: State -> bool, s: State, call: nat, p: Pid, child: Pid)
    requires Closed(reach) && reach(s) && CanStart(s, call, p, child)
    ensures reach(WithChild(s, call, p, child))
  {
    StartResolves(s, call, p, child);
    assert reach(Calling(s, call, Resolved(p, None, false)));
    StartValidates(s, call, p, child);
    assert reach(Calling(s, call, Validated(p, Entry(Some(p)), false)));
    StartEnters(s, call, p, child);
  }

  lemma Links(reach: State -> bool, s: State, call: nat, p: Pid, child: Pid)
    requires Closed(reach) && reach(s) && CanStart(s, call, p, child)
    ensures reach(WithLinked(s, p, child))
  {
    Enters(reach, s, call, p, child);
    StartLinks(s, call, p, child);
  }

  function One(): State {
    Start(START, 1, Entry(None), false)
  }

  function Two(): State {
    WithLinked(One(), 1, 2)
  }

  function Three(): State {
    WithLinked(Two(), 2, 3)
  }

  lemma Boots()
    ensures Stepped(START, Bootstrap(1, OVER, None), One())
  {
    OverHolds();
  }

  lemma ReachTwo(reach: State -> bool)
    requires Closed(reach) && reach(START)
    ensures reach(Two())
  {
    Boots();
    assert reach(One());
    Links(reach, One(), 0, 1, 2);
  }

  /** The four processes as they were born. */
  const BORN := map[1 := Entry(None), 2 := Entry(Some(1)), 3 := Entry(Some(2)), 4 := Entry(Some(3))]

  lemma BornInLine()
    ensures Lineage(BORN, [3, 2, 1])
  {
  }

  /** What is wrong between the processes 3 and 1, in a table where 4 is a child of 3. */
  lemma KinStop(s: State, i: nat, uri: (string, string) -> bool)
    requires Reachable(s) && s.past.born == BORN && i < 2 && 1 in s.live && 3 in s.live && 4 in s.live
    requires var path := [3, 2, 1]; path[i] !in s.live || s.live[path[i]].parent != Some(path[i + 1])
    requires s.live[4].parent == Some(3) && s.live[1].grants == OVER && s.live[3].grants == OVER
    ensures exists c ::
              Authorises(s.live, 3, ProcessLifecycle, c, uri) && !Authorises(s.live, 1, ProcessLifecycle, c, uri)
  {
    var es :| IsRun(es) && After(es) == s;
    var path := [3, 2, 1];
    BornInLine();
    assert Leads(s.live, [4], 4, 3);
    assert Descends(s.live, 4, path[0]);
    assert !Linked(s.live, path) by {
      assert 0 <= i < |path| - 1;
    }
    assert !KinPasses(s.live, path);
    ChildrenExactly(es, path, ProcessLifecycle, uri);
  }

  // ---------------------------------------------------------------------
  // A stopped process in between
  // ---------------------------------------------------------------------

  function Four(): State {
    WithLinked(Three(), 3, 4)
  }

  /** A chain of four processes whose second has stopped. */
  function Stopped(): State {
    Four().(live := map[1 := Entry(None), 3 := Entry(Some(2)), 4 := Entry(Some(3))])
  }

  lemma ReachFour(reach: State -> bool)
    requires Closed(reach) && reach(START)
    ensures reach(Four())
  {
    ReachTwo(reach);
    Links(reach, Two(), 0, 2, 3);
    Links(reach, Three(), 0, 3, 4);
  }

  lemma FourBorn()
    ensures Four().past.born == BORN && Four().live == BORN && Four().leaving == map[]
  {
  }

  lemma SecondStops()
    ensures var m := Stopped().(leaving := map[2 := Entry(Some(1))]);
            Stepped(Four(), Leave(2), m) && Stepped(m, Forget(2), Stopped())
  {
    FourBorn();
    var m := Stopped().(leaving := map[2 := Entry(Some(1))]);
    assert Four().live - {2} == Stopped().live;
    assert m.leaving - {2} == map[];
  }

  lemma ReachStopped(reach: State -> bool)
    requires Closed(reach) && reach(START)
    ensures reach(Stopped())
  {
    ReachFour(reach);
    SecondStops();
    assert reach(Stopped().(leaving := map[2 := Entry(Some(1))]));
  }

  /**
   Once a process in between has stopped, a descendant can be authorised over its
   own child where the ancestor, with the same grant, is not.
   */
  lemma StoppedBreaksKin(uri: (string, string) -> bool)
    ensures var s := Stopped();
            && Reachable(s) && Lineage(s.past.born, [3, 2, 1]) && 2 !in s.live
            && exists c :: Authorises(s.live, 3, ProcessLifecycle, c, uri)
                           && !Authorises(s.live, 1, ProcessLifecycle, c, uri)
  {
    var reach := (s: State) => Reachable(s);
    ReachableClosed(reach);
    ReachStopped(reach);
    FourBorn();
    BornInLine();
    KinStop(Stopped(), 1, uri);
  }

  // ---------------------------------------------------------------------
  // A process not yet linked
  // ---------------------------------------------------------------------

  /** The entrypoint of 3, which has started 4, has not returned. */
  function Unlinked(): State {
    WithLinked(WithChild(Two(), 0, 2, 3), 3, 4)
  }

  lemma ReachUnlinked(reach: State -> bool)
    requires Closed(reach) && reach(START)
    ensures reach(Unlinked())
  {
    ReachTwo(reach);
    Enters(reach, Two(), 0, 2, 3);
    Links(reach, WithChild(Two(), 0, 2, 3), 1, 3, 4);
  }

  lemma UnlinkedTables()
    ensures Unlinked().past.born == BORN && Unlinked().live == BORN[3 := Entry(None)]
  {
  }

  /** The same happens with nothing stopped, while a child's entrypoint runs. */
  lemma UnlinkedBreaksKin(uri: (string, string) -> bool)
    ensures var s := Unlinked();
            && Reachable(s) && Lineage(s.past.born, [3, 2, 1]) && s.live.Keys == s.past.born.Keys
            && exists c :: Authorises(s.live, 3, ProcessLifecycle, c, uri)
                           && !Authorises(s.live, 1, ProcessLifecycle, c, uri)
  {
    var reach := (s: State) => Reachable(s);
    ReachableClosed(reach);
    ReachUnlinked(reach);
    UnlinkedTables();
    BornInLine();
    KinStop(Unlinked(), 0, uri);
  }

  // ---------------------------------------------------------------------
  // A lost tenant
  // ---------------------------------------------------------------------

  /** A process of tenant "a". */
  function Owned(): State {
    Start(START, 1, Record([], Some("a"), None), false)
  }

  /** It starts a child while a stop takes it out and puts it back. */
  function Astray(): State {
    Calling(Start(Owned(), 2, Record([], None, Some(1)), true), 0, Entered(1, 2))
  }

  function TakenOut(): State {
    Owned().(live := map[], leaving := Owned().live)
  }

  lemma TakesOut()
    ensures Stepped(START, Bootstrap(1, [], Some("a")), Owned()) && Stepped(Owned(), Leave(1), TakenOut())
    ensures Stepped(TakenOut(), Resolve(0, 1, None), Calling(TakenOut(), 0, Resolved(1, None, true)))
  {
    assert Owned().live - {1} == map[];
    assert map[1 := Owned().live[1]] == Owned().live;
  }

  lemma PutsBack()
    ensures Stepped(Calling(TakenOut(), 0, Resolved(1, None, true)), Restore(1),
                    Calling(Owned(), 0, Resolved(1, None, true)))
  {
    assert TakenOut().leaving - {1} == map[];
  }

  lemma GoesAstray()
    ensures Stepped(Calling(Owned(), 0, Resolved(1, None, true)), Validate(0, []),
                    Calling(Owned(), 0, Validated(1, Record([], None, Some(1)), true)))
    ensures Stepped(Calling(Owned(), 0, Validated(1, Record([], None, Some(1)), true)), Enter(0, 2), Astray())
  {
  }

  lemma ReachAstray(reach: State -> bool)
    requires Closed(reach) && reach(START)
    ensures reach(Astray())
  {
    TakesOut();
    assert reach(Owned()) && reach(TakenOut()) && reach(Calling(TakenOut(), 0, Resolved(1, None, true)));
    PutsBack();
    assert reach(Calling(Owned(), 0, Resolved(1, None, true)));
    GoesAstray();
    assert reach(Calling(Owned(), 0, Validated(1, Record([], None, Some(1)), true)));
  }

  /** The child of a process of tenant "a" runs under no tenant. */
  lemma LostTenant()
    ensures var s := Astray();
            && Reachable(s) && s.live.Keys == {1, 2} && s.past.born[2].parent == Some(1)
            && s.live[1].tenant == Some("a") && s.live[2].tenant == None && !TenantsFenced(s.past.born)
  {
    var reach := (s: State) => Reachable(s);
    ReachableClosed(reach);
    ReachAstray(reach);
    var es :| IsRun(es) && After(es) == Astray();
    TenantsExactly(es);
    assert 2 in Astray().past.strays;
  }
}
