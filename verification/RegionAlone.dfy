/**
 A region hostcall whose sections run without another thread in between does
 exactly what the whole hostcall does.
 */
module RegionAlone {
  import opened Common
  import opened Quota
  import opened RegionRaces
  import R = Regions

  /** The state as the whole hostcalls see it. */
  function Whole(s: State): R.State {
    R.State(s.tenants, s.books, s.quotas, map[], R.Past({}, s.past.leaked, false))
  }

  /** The two states agree but for the regions ever allocated. */
  predicate Agree(s: State, a: State, w: R.State) {
    && a.threads == s.threads && a.tenants == s.tenants == w.tenants
    && a.books == w.books && a.quotas == w.quotas && a.past.leaked == w.past.leaked
  }

  /** One section of a call, passed over when the call has ended before it. */
  function Section(s: State, i: nat, act: Action): (r: State)
    requires i < |s.threads|
    ensures |r.threads| == |s.threads|
  {
    if Ready(s, s.threads[i], act) then Apply(s, Step(i, act)) else s
  }

  /** `FreeRegion` up to the destruction of the region. */
  function FreeFirst(s: State, i: nat, p: Pid, r: Rid): (a: State)
    requires i < |s.threads|
    ensures |a.threads| == |s.threads|
  {
    Section(Section(Section(s, i, FreeCheck(p, r)), i, FreeRead), i, FreeDestroy)
  }

  function FreeAll(s: State, i: nat, p: Pid, r: Rid): State
    requires i < |s.threads|
  {
    Section(Section(Section(FreeFirst(s, i, p, r), i, FreeDisown), i, FreeRelease), i, FreeForget)
  }

  lemma FreeBegins(s: State, i: nat, p: Pid, r: Rid)
    requires i < |s.threads| && s.threads[i].Idle?
    ensures var k := (p, r);
            FreeFirst(s, i, p, r) ==
              if !R.Owns(s.books, p, r) || r !in s.books.lens then s
              else At(s, i, FreeGone(p, r, s.books.lens[r],
                                     if k in s.books.records then Some(s.books.records[k]) else None)).(
                     books := s.books.(lens := s.books.lens - {r}))
  {
    assert s.threads[i := Idle] == s.threads;
  }

  lemma FreeEnds(s: State, i: nat)
    requires i < |s.threads| && s.threads[i].FreeGone?
    ensures var pc, b := s.threads[i], s.books;
            Section(Section(Section(s, i, FreeDisown), i, FreeRelease), i, FreeForget) ==
              At(s, i, Idle).(
                books := b.(owners := R.Disown(b.owners, pc.p, pc.r), records := b.records - {(pc.p, pc.r)}),
                quotas := if pc.paid.Some? then Release(s.quotas, pc.paid.value, SharedRegion, pc.size) else s.quotas)
  {
  }

  /** A whole free. */
  lemma FreeAlone(s: State, i: nat, p: Pid, r: Rid)
    requires i < |s.threads| && s.threads[i].Idle?
    ensures Agree(s, FreeAll(s, i, p, r), R.DoFree(Whole(s), p, r))
  {
    FreeBegins(s, i, p, r);
    var a := FreeFirst(s, i, p, r);
    if a.threads[i].FreeGone? {
      FreeEnds(a, i);
      assert a.threads[i := Idle] == s.threads;
    }
  }

  /** All of `transfer_region_ownership_on_recv`. */
  function HandAll(s: State, i: nat, to: Pid, sender: Pid, r: Rid): State
    requires i < |s.threads|
  {
    Section(Section(Section(s, i, HandCheck(to, sender, r)), i, HandRekey), i, HandOwn)
  }

  lemma HandEnds(s: State, i: nat, to: Pid, sender: Pid, r: Rid)
    requires i < |s.threads| && s.threads[i] == Handing(to, sender, r) && r in s.books.owners
    ensures var m := Rekey(s, to, sender, r);
            Section(Section(s, i, HandRekey), i, HandOwn) ==
              At(m, i, Idle).(
                books := m.books.(owners := m.books.owners[r := m.books.owners[r] - {sender} + {to}]))
  {
    var m := Rekey(s, to, sender, r);
    assert m.threads[i := Rekeyed(to, sender, r)][i := Idle] == m.threads[i := Idle];
  }

  /** A whole handoff. */
  lemma HandAlone(s: State, i: nat, to: Pid, sender: Pid, r: Rid)
    requires i < |s.threads| && s.threads[i].Idle?
    ensures Agree(s, HandAll(s, i, to, sender, r), R.DoTransfer(Whole(s), to, sender, r))
  {
    if R.Owns(s.books, sender, r) {
      var a := Section(s, i, HandCheck(to, sender, r));
      HandEnds(a, i, to, sender, r);
      assert a.threads[i := Idle] == s.threads;
    }
  }

  /** All of `AllocRegion` from the reservation on. */
  function AllocAll(s: State, i: nat, p: Pid, tenant: string, size: Len, o: R.Outcome): State
    requires i < |s.threads|
  {
    var a := Section(s, i, Reserve(p, tenant, size));
    match o
    case KernelFails => Section(a, i, Action.KernelFails)
    case PublishFails(r) => Section(Section(a, i, Allocate(r)), i, Action.PublishFails)
    case Succeeds(r) => Section(Section(a, i, Allocate(r)), i, Record)
  }

  /** A whole allocation. */
  lemma AllocAlone(s: State, i: nat, p: Pid, tenant: string, size: Len, o: R.Outcome)
    requires i < |s.threads| && s.threads[i].Idle? && (o.KernelFails? || o.id !in s.past.born)
    ensures Agree(s, AllocAll(s, i, p, tenant, size, o),
                  if Admits(s.quotas, tenant, SharedRegion, size) then R.Reserved(Whole(s), p, tenant, size, o)
                  else Whole(s))
  {
  }
}
