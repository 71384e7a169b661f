/**
 The authority table as the runtime keeps it. A start runs the child's entrypoint
 between the entering and the linking of its record, and the entrypoint may start
 and stop processes in turn. Every method keeps the table in a state that some run
 of `SpawnTree` reaches, so what holds of all runs holds of the code.
 */
module ProcessCode {
  import opened Common
  import opened Authority
  import opened SpawnTree
  import opened Kinship

  lemma LineageShort(s: State, path: seq<Pid>)
    requires TreeOk(s) && Lineage(s.live, path)
    ensures |path| <= |s.live|
  {
    LineageBorn(s, path);
    forall i, j | 0 <= i < j < |path| ensures path[i] != path[j] {
      LineageAges(s.past, path, i, j);
    }
    DistinctSize(path);
    SubsetSize(Elements(path), s.live.Keys);
  }

  lemma WalkShort(s: State, path: seq<Pid>)
    requires Reachable(s) && Lineage(s.live, path)
    ensures |path| <= |s.live|
  {
    ReachTree(s);
    LineageShort(s, path);
  }

  function Elements(path: seq<Pid>): set<Pid> {
    set x | x in path
  }

  lemma {:induction false} DistinctSize(path: seq<Pid>)
    requires forall i, j | 0 <= i < j < |path| :: path[i] != path[j]
    ensures |Elements(path)| == |path|
  {
    if path != [] {
      DistinctSize(path[1..]);
      assert forall k | 0 <= k < |path[1..]| :: path[1..][k] == path[k + 1];
      assert path[0] !in Elements(path[1..]);
      assert Elements(path) == {path[0]} + Elements(path[1..]);
    }
  }

  lemma {:induction false} SubsetSize(a: set<Pid>, b: set<Pid>)
    requires a <= b
    ensures |a| <= |b|
  {
    if x :| x in a {
      SubsetSize(a - {x}, b - {x});
    }
  }

  /** Extending a walk up from `x` by one link. */
  lemma WalkNext(table: map<Pid, Record>, path: seq<Pid>, p: Pid)
    requires Lineage(table, path) && p in table && table[path[|path| - 1]].parent == Some(p)
    ensures Lineage(table, path + [p])
  {
    var all := path + [p];
    forall i | 0 <= i < |all| - 1 ensures table[all[i]].parent == Some(all[i + 1]) {
    }
  }

  lemma WalkStops(table: map<Pid, Record>, path: seq<Pid>, n: nat)
    requires Lineage(table, path) && n < |path| && path[n] in table && table[path[n]].parent.None?
    ensures n == |path| - 1
  {
    forall i | 0 <= i < |path| - 1 ensures path[i] in table && table[path[i]].parent.Some? {
      assert path[i] in path && table[path[i]].parent == Some(path[i + 1]);
    }
  }

  /** A walk that passed no child of `p` and cannot go on has no `p` above it. */
  lemma NotBelow(table: map<Pid, Record>, path: seq<Pid>, p: Pid)
    requires path != [] && var n := |path| - 1;
             && (n > 0 ==> Lineage(table, path[..n]) && table[path[n - 1]].parent == Some(path[n]))
             && (forall j | 0 <= j < n :: table[path[j]].parent != Some(p))
             && (path[n] in table ==> table[path[n]].parent.None?)
    ensures !Descends(table, path[0], p)
  {
    var n := |path| - 1;
    forall other ensures !Leads(table, other, path[0], p) {
      if Lineage(table, other) && other[0] == path[0] {
        var m := |other| - 1;
        if m < n {
          WalksAgree(table, path[..n], other, m);
          assert other[m] == path[m];
        } else {
          if n > 0 {
            WalksAgree(table, path[..n], other, n - 1);
            assert other[n - 1] == path[n - 1];
          }
          assert other[n] == path[n] && other[n] in other;
          WalkStops(table, other, n);
        }
      }
    }
  }

  // ---------------------------------------------------------------------
  // The table
  // ---------------------------------------------------------------------

  datatype Error = PermissionDenied | MalformedPayload | InvalidHandle | Internal

  /** `cleaned` says that the resources of the failed child could be cleaned up. */
  datatype Outcome = ComesUp | Fails(cleaned: bool)

  /** What a process asks for, what the child's entrypoint does, and what becomes of it. */
  datatype Request = Request(grants: seq<Grant>, tenant: Option<string>, deeds: seq<Deed>, outcome: Outcome)

  /** `tornDown` says that the resources of the stopped process could be cleaned up. */
  datatype Deed = Starts(request: Request) | Stops(p: Pid, tornDown: bool)

  /** The process may start a child with these grants and this tenant. */
  predicate Admissible(live: map<Pid, Record>, p: Pid, req: Request) {
    && p in live && MayRunAs(live[p], req.tenant)
    && (forall g | g in req.grants :: WellFormed(g)) && MayHold(live[p].grants, req.grants)
  }

  /** The child's record is in the table and waits for its link. */
  ghost function Entering(s: State, call: nat, p: Pid, req: Request, child: Pid): State
    requires p in s.live
  {
    var r := Record(req.grants, RunsAs(s.live[p], req.tenant), Some(p));
    Start(s, child, r, false).(calls := s.calls[call := Entered(p, child)])
  }

  lemma EntersAdmitted(s: State, call: nat, p: Pid, req: Request, child: Pid)
    requires Reachable(s) && Admissible(s.live, p, req) && call !in s.calls && child !in s.past.born
    ensures Reachable(Entering(s, call, p, req, child))
  {
    ReachTree(s);
    assert RecordOk(s.past.born, p, s.live[p]);
    var tenant := RunsAs(s.live[p], req.tenant);
    var s1 := s.(calls := s.calls[call := Resolved(p, tenant, false)]);
    var s2 := s.(calls := s.calls[call := Validated(p, Record(req.grants, tenant, Some(p)), false)]);
    ReachStep(s, Resolve(call, p, req.tenant), s1);
    AdmittedSteps(s, call, p, req, child);
    ReachStep(s1, Validate(call, req.grants), s2);
    ReachStep(s2, Enter(call, child), Entering(s, call, p, req, child));
  }

  lemma AdmittedSteps(s: State, call: nat, p: Pid, req: Request, child: Pid)
    requires Admissible(s.live, p, req) && call !in s.calls && child !in s.past.born
    ensures var tenant := RunsAs(s.live[p], req.tenant);
            var s1 := s.(calls := s.calls[call := Resolved(p, tenant, false)]);
            var s2 := s.(calls := s.calls[call := Validated(p, Record(req.grants, tenant, Some(p)), false)]);
            && Stepped(s1, Validate(call, req.grants), s2)
            && Stepped(s2, Enter(call, child), Entering(s, call, p, req, child))
  {
    var tenant := RunsAs(s.live[p], req.tenant);
    var c2 := Validated(p, Record(req.grants, tenant, Some(p)), false);
    assert s.calls[call := Resolved(p, tenant, false)][call := c2] == s.calls[call := c2];
    assert s.calls[call := c2][call := Entered(p, child)] == s.calls[call := Entered(p, child)];
  }

  lemma ReachStep(s: State, e: Event, r: State)
    requires Reachable(s) && Stepped(s, e, r)
    ensures Reachable(r)
  {
    ReachNext(s, e);
  }

  lemma NotLive(s: State, child: Pid)
    requires Reachable(s) && child !in s.past.born
    ensures child !in s.live
  {
    ReachTree(s);
    assert child in s.live ==> RecordOk(s.past.born, child, s.live[child]);
  }

  /** Linking a live child completes the record it was born with. */
  lemma LinkedRecord(s: State, p: Pid, child: Pid)
    requires Reachable(s) && child in s.calls && s.calls[child] == Entered(p, child)
    ensures child in s.past.born
    ensures child in s.live ==> s.live[child].(parent := Some(p)) == s.past.born[child]
  {
    ReachTree(s);
    assert CallOk(s.past.born, s.calls[child]);
    if child in s.live {
      assert RecordOk(s.past.born, child, s.live[child]);
    }
  }

  class ProcessTable {
    var live: map<Pid, Record>
    var nextPid: Pid              // stands for the kernel, which hands out fresh ids
    ghost var calls: map<nat, Call>
    ghost var past: Past

    ghost function View(): State
      reads this
    {
      State(live, map[], calls, past)
    }

    /** No stop is under way. */
    ghost predicate Valid()
      reads this
    {
      && Reachable(View())
      && (forall x | x in past.born :: x < nextPid) && (forall c | c in calls :: c < nextPid)
    }

    constructor ()
      ensures View() == START && Valid()
    {
      live, calls, past := map[], map[], Past(map[], map[], 0, {});
      nextPid := 0;
      new;
      ReachStart();
    }

    /** `validate_child_grants`, given the parent's record. */
    method ValidateChildGrants(p: Pid, grants: seq<Grant>) returns (r: Result<(), Error>)
      ensures r == if exists g | g in grants :: !WellFormed(g) then Err(MalformedPayload)
                   else if p !in live then Err(InvalidHandle)
                   else if MayHold(live[p].grants, grants) then Ok(())
                   else Err(PermissionDenied)
    {
      for i := 0 to |grants|
        invariant forall g | g in grants[..i] :: WellFormed(g)
      {
        if !WellFormed(grants[i]) {
          return Err(MalformedPayload);
        }
        assert grants[..i + 1] == grants[..i] + [grants[i]];
      }
      assert grants[..|grants|] == grants;
      if p !in live {
        return Err(InvalidHandle);
      }
      var parent := live[p].grants;
      if exists g | g in grants :: g.capability == DelegateGrants || g.capability == MintCertificate
                                   || g.capability == QuotaWrite {
        return Err(PermissionDenied);
      }
      var scope := DelegationScope(parent);
      if scope.Some? && forall g | g in grants :: InScope(scope.value, g) {
        return Ok(());
      }
      for i := 0 to |grants|
        invariant forall g | g in grants[..i] :: CoveredBy(parent, g)
      {
        if !CoveredBy(parent, grants[i]) {
          assert grants[i] in grants;
          return Err(PermissionDenied);
        }
        assert grants[..i + 1] == grants[..i] + [grants[i]];
      }
      r := Ok(());
    }

    /** `resolve_spawn_tenant`. */
    method ResolveSpawnTenant(p: Pid, requested: Option<string>) returns (r: Result<Option<string>, Error>)
      ensures p in live ==> r == if MayRunAs(live[p], requested) then Ok(RunsAs(live[p], requested))
                                 else Err(PermissionDenied)
      ensures p !in live ==> r == if requested.None? then Ok(None) else Err(InvalidHandle)
      ensures p in live && r.Ok? ==> r.value == if requested.Some? then requested else live[p].tenant
      ensures p in live && requested.Some? ==>
                (r.Ok? <==> requested == live[p].tenant || DelegatesTo(live[p].grants, requested.value))
    {
      if p in live && requested.Some? {
        MayDelegateExactly(live[p].grants, requested.value);
      }
      var own := if p in live then live[p].tenant else None;
      if requested.None? {
        return Ok(own);
      }
      if own == requested {
        return Ok(requested);
      }
      if p !in live {
        return Err(InvalidHandle);
      }
      var scope := DelegationScope(live[p].grants);
      if scope.Some? && AdmitsTenant(scope.value, requested.value) {
        return Ok(requested);
      }
      r := Err(PermissionDenied);
    }

    /** The record a bootstrapped guest gets in `spawn_system_guest`. */
    method Bootstrap(grants: seq<Grant>, tenant: Option<string>) returns (r: Result<Pid, Error>)
      requires Valid()
      modifies this
      ensures Valid()
      ensures r.Ok? <==> forall g | g in grants :: WellFormed(g)
      ensures r.Err? ==> View() == old(View()) && r.error == MalformedPayload
      ensures r.Ok? ==>
                && r.value !in old(past.born)
                && View() == Start(old(View()), r.value, Record(grants, tenant, None), false)
    {
      if exists g | g in grants :: !WellFormed(g) {
        return Err(MalformedPayload);
      }
      ReachNext(View(), SpawnTree.Bootstrap(nextPid, grants, tenant));
      r := Ok(nextPid);
      live := live[nextPid := Record(grants, tenant, None)];
      past := Birth(past, nextPid, Record(grants, tenant, None), false);
      nextPid := nextPid + 1;
    }

    /** `stop_process`: takes the record out, and puts it back if the teardown fails. */
    method StopProcess(p: Pid, tornDown: bool)
      requires Valid()
      modifies this`live
      ensures Valid()
      ensures live == if tornDown then old(live) - {p} else old(live)
    {
      if p !in live {
        return;
      }
      ghost var out := View().(live := live - {p}, leaving := map[p := live[p]]);
      ReachStep(View(), Leave(p), out);
      assert out.leaving - {p} == map[];
      if tornDown {
        ReachStep(out, Forget(p), out.(leaving := map[]));
        live := live - {p};
      } else {
        assert (live - {p})[p := live[p]] == live;
        ReachStep(out, Restore(p), View());
      }
    }

    /** The first half of `ProcessStart`: the checks, and the child's record without its parent. */
    method EnterChild(p: Pid, req: Request) returns (r: Result<Pid, Error>)
      requires Valid()
      modifies this
      ensures Valid()
      ensures r.Ok? <==> old(Admissible(live, p, req))
      ensures r.Err? ==> View() == old(View()) && nextPid == old(nextPid) && r.error != Internal
      ensures r.Ok? ==>
                var record := Record(req.grants, RunsAs(old(live)[p], req.tenant), Some(p));
                && r.value >= old(nextPid) && nextPid == r.value + 1 && r.value !in old(calls)
                && r.value !in old(live) && r.value !in old(past.born)
                && live == old(live)[r.value := record.(parent := None)]
                && calls == old(calls)[r.value := Entered(p, r.value)]
                && past == Birth(old(past), r.value, record, false)
    {
      var tenant := ResolveSpawnTenant(p, req.tenant);
      if tenant.Err? {
        return Err(tenant.error);
      }
      var valid := ValidateChildGrants(p, req.grants);
      if valid.Err? {
        return Err(valid.error);
      }
      var child := nextPid;
      EntersAdmitted(View(), child, p, req, child);
      NotLive(View(), child);
      ghost var record := Record(req.grants, tenant.value, Some(p));
      live := live[child := Record(req.grants, tenant.value, None)];
      calls, past := calls[child := Entered(p, child)], Birth(past, child, record, false);
      nextPid := nextPid + 1;
      r := Ok(child);
    }

    /** The second half, once the entrypoint has returned: the link to the parent. */
    method LinkChild(p: Pid, child: Pid)
      requires Valid() && child in calls && calls[child] == Entered(p, child)
      modifies this`live, this`calls
      ensures Valid() && calls == old(calls) - {child}
      ensures live == if child in old(live) then old(live)[child := old(live)[child].(parent := Some(p))] else old(live)
    {
      ReachNext(View(), Link(child));
      if child in live {
        live := live[child := live[child].(parent := Some(p))];
      }
      calls := calls - {child};
    }

    /** `cleanup_failed_process` of a child that did not come up. Its record stays if the cleanup fails. */
    method AbandonChild(p: Pid, child: Pid, cleaned: bool)
      requires Valid() && child in calls && calls[child] == Entered(p, child)
      modifies this`live, this`calls
      ensures Valid() && calls == old(calls) - {child}
      ensures live == if cleaned then old(live) - {child} else old(live)
    {
      if cleaned {
        StopProcess(child, true);
      }
      ReachNext(View(), Fail(child));
      calls := calls - {child};
    }

    /** Links a child that came up, with the record it was born with, and abandons one that did not. */
    method FinishChild(p: Pid, child: Pid, outcome: Outcome) returns (r: Result<Pid, Error>)
      requires Valid() && child in calls && calls[child] == Entered(p, child)
      modifies this`live, this`calls
      ensures Valid() && calls == old(calls) - {child} && r == if outcome.ComesUp? then Ok(child) else Err(Internal)
      ensures outcome.ComesUp? ==>
                && child in past.born && (child in live ==> live[child] == past.born[child])
                && live == if child in old(live) then old(live)[child := past.born[child]] else old(live)
      ensures outcome.Fails? ==> live == if outcome.cleaned then old(live) - {child} else old(live)
    {
      if outcome.ComesUp? {
        LinkedRecord(View(), p, child);
        LinkChild(p, child);
        r := Ok(child);
      } else {
        AbandonChild(p, child, outcome.cleaned);
        r := Err(Internal);
      }
    }

    /**
     `ProcessStart`, once the caller's lifecycle grant, the module and the quota are
     settled. It succeeds exactly for an admissible request whose child comes up,
     whatever the child's entrypoint starts and stops meanwhile.
     */
    method ProcessStart(p: Pid, req: Request) returns (r: Result<Pid, Error>)
      requires Valid()
      modifies this
      ensures Valid() && calls == old(calls) && nextPid >= old(nextPid)
      ensures forall x | x in old(past.born) :: x in past.born && past.born[x] == old(past.born)[x]
      ensures past.strays == old(past.strays)
      ensures r.Ok? <==> old(Admissible(live, p, req)) && req.outcome.ComesUp?
      ensures !old(Admissible(live, p, req)) ==> View() == old(View())
      ensures r.Ok? ==>
                && r.value !in old(past.born) && r.value in past.born
                && past.born[r.value] == Record(req.grants, RunsAs(old(live)[p], req.tenant), Some(p))
                && (r.value in live ==> live[r.value] == past.born[r.value])
      ensures old(Admissible(live, p, req)) && req.deeds == [] && req.outcome != Fails(false) ==>
                live == if r.Ok? then old(live)[r.value := past.born[r.value]] else old(live)
      decreases req, 2
    {
      r := EnterChild(p, req);
      if r.Err? {
        return;
      }
      var child := r.value;
      assert calls - {child} == old(calls) && live - {child} == old(live);
      r := BringUp(p, child, req);
    }

    /** Runs the entrypoint of an entered child, then links or abandons it. */
    method BringUp(p: Pid, child: Pid, req: Request) returns (r: Result<Pid, Error>)
      requires Valid() && child in calls && calls[child] == Entered(p, child)
      modifies this
      ensures Valid() && calls == old(calls) - {child} && nextPid >= old(nextPid)
      ensures forall x | x in old(past.born) :: x in past.born && past.born[x] == old(past.born)[x]
      ensures past.strays == old(past.strays) && r == if req.outcome.ComesUp? then Ok(child) else Err(Internal)
      ensures req.outcome.ComesUp? ==> child in past.born && (child in live ==> live[child] == past.born[child])
      ensures req.deeds == [] && child in old(live) ==>
                live == if r.Ok? then old(live)[child := past.born[child]]
                        else if req.outcome.cleaned then old(live) - {child} else old(live)
      decreases req, 1
    {
      RunEntrypoint(child, req);
      r := FinishChild(p, child, req.outcome);
    }

    /** The child's entrypoint: it starts and stops processes as the request says. */
    method RunEntrypoint(child: Pid, req: Request)
      requires Valid()
      modifies this
      ensures Valid() && calls == old(calls) && nextPid >= old(nextPid)
      ensures forall x | x in old(past.born) :: x in past.born && past.born[x] == old(past.born)[x]
      ensures past.strays == old(past.strays) && (req.deeds == [] ==> View() == old(View()))
      decreases req, 0
    {
      for i := 0 to |req.deeds|
        invariant Valid() && calls == old(calls) && nextPid >= old(nextPid)
        invariant forall x | x in old(past.born) :: x in past.born && past.born[x] == old(past.born)[x]
        invariant past.strays == old(past.strays) && (i == 0 ==> View() == old(View()))
      {
        match req.deeds[i] {
          case Starts(inner) =>
            var started := ProcessStart(child, inner);
          case Stops(q, tornDown) =>
            StopProcess(q, tornDown);
        }
      }
    }

    /** `is_descendant_of`: a walk bounded by the table size that misses no ancestor. */
    method IsDescendantOf(target: Pid, ancestor: Pid) returns (r: bool)
      requires Valid()
      ensures r <==> Descends(live, target, ancestor)
    {
      var current := target;
      ghost var path := [target];
      for i := 0 to |live| + 1
        invariant |path| == i + 1 && path[i] == current && path[0] == target
        invariant i > 0 ==> Lineage(live, path[..i]) && live[path[i - 1]].parent == Some(current)
        invariant forall j | 0 <= j < i :: live[path[j]].parent != Some(ancestor)
      {
        if current !in live {
          NotBelow(live, path, ancestor);
          return false;
        }
        if i > 0 { WalkNext(live, path[..i], current); }
        assert path[..i] + [current] == path;
        assert Lineage(live, path);
        if live[current].parent == Some(ancestor) {
          assert Leads(live, path, target, ancestor);
          return true;
        }
        if live[current].parent.None? {
          NotBelow(live, path, ancestor);
          return false;
        }
        current := live[current].parent.value;
        path := path + [current];
      }
      WalkShort(View(), path[..|live| + 1]);
      r := false;
    }
  }
}
