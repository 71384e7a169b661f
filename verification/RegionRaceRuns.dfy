/** Interleavings of region hostcalls that break what whole hostcalls promise. */
module RegionRaceRuns {
  import opened Common
  import opened Sums
  import opened Quota
  import R = Regions
  import opened RegionRaces

  /** Two threads and one record cannot hold much. */
  predicate Little(s: State) {
    |s.threads| == 2 && |s.books.records| <= 1 && s.past.leaked == map[]
  }

  lemma LengthsLittle(records: map<(Pid, Rid), string>, lens: map<Rid, Len>, t: string)
    requires |records| <= 1
    ensures Total(R.Lengths(records, lens, t)) <= TWO_32
  {
    var m := R.Lengths(records, lens, t);
    if k :| k in m {
      assert records.Keys - {k} == {} by {
        assert |records.Keys - {k}| == |records.Keys| - 1 == |records| - 1;
      }
      TotalRemove(m, k);
      assert m - {k} == map[];
    } else {
      assert m == map[];
    }
  }

  lemma LittleIsSmall(s: State)
    requires Little(s)
    ensures Small(s)
  {
    forall t ensures Held(s, t) <= U64_MAX {
      LengthsLittle(s.books.records, s.books.lens, t);
      assert s.threads == [s.threads[0], s.threads[1]];
      assert CarriedBy([s.threads[1]], t) == Carried(s.threads[1], t);
      assert CarriedBy(s.threads, t) <= 2 * TWO_32;
    }
  }

  ghost predicate Stepped(s: State, e: Event, a: State) {
    Enabled(s, e) && Apply(s, e) == a && Little(a)
  }

  lemma RunMore(es: seq<Event>, s: State, e: Event, a: State)
    requires IsRun(2, es) && After(2, es) == s && Stepped(s, e, a)
    ensures IsRun(2, es + [e]) && After(2, es + [e]) == a
  {
    LittleIsSmall(a);
    assert (es + [e])[..|es + [e]| - 1] == es;
  }

  /** `ends(es, s)` says that `es` is a run that ends in `s`. */
  ghost predicate Extends(ends: (seq<Event>, State) -> bool) {
    forall es, s, e, a {:trigger ends(es, s), Stepped(s, e, a)} :: ends(es, s) && Stepped(s, e, a) ==> ends(es + [e], a)
  }

  ghost function Ending(): (seq<Event>, State) -> bool {
    (es: seq<Event>, s: State) => IsRun(2, es) && After(2, es) == s
  }

  lemma EndingExtends()
    ensures Extends(Ending()) && Ending()([], Init(2))
  {
    forall es, s, e, a | Ending()(es, s) && Stepped(s, e, a) ensures Ending()(es + [e], a) {
      RunMore(es, s, e, a);
    }
    LittleIsSmall(Init(2));
    var none: seq<Event> := [];
    assert After(2, none) == Init(2) && IsRun(2, none);
  }

  /** A region of one page, made by process 1 for tenant "a". Process 2 belongs to tenant "b". */
  const MADE := [Start(2, Some("b")), Step(0, Reserve(1, "a", R.PAGE)), Step(0, Allocate(7)), Step(0, Record)]

  function MadeState(threads: seq<Pc>): State {
    State(map[2 := Some("b")], R.Books(map[7 := R.PAGE], map[7 := {1}], map[(1, 7) := "a"]),
          map[("a", SharedRegion) := Counter(U64_MAX, R.PAGE)], threads, Past({7}, map[]))
  }

  /** Before the region exists. */
  function BareState(threads: seq<Pc>): State {
    MadeState(threads).(books := R.Books(map[], map[], map[]), past := Past({}, map[]))
  }

  lemma MakingStarts()
    ensures Stepped(Init(2), MADE[0], BareState([Idle, Idle]).(quotas := map[]))
    ensures Stepped(BareState([Idle, Idle]).(quotas := map[]), MADE[1], BareState([Reserved(1, "a", R.PAGE), Idle]))
  {
  }

  lemma MakingAllocates()
    ensures var m := MadeState([Minting(1, 7, "a", R.PAGE), Idle]).(
                books := R.Books(map[7 := R.PAGE], map[7 := {1}], map[]));
            && Stepped(BareState([Reserved(1, "a", R.PAGE), Idle]), MADE[2], m)
            && Stepped(m, MADE[3], MadeState([Idle, Idle]))
  {
  }

  lemma Made(ends: (seq<Event>, State) -> bool)
    requires Extends(ends) && ends([], Init(2))
    ensures ends(MADE, MadeState([Idle, Idle]))
  {
    MakingStarts();
    MakingAllocates();
    var m := MadeState([Minting(1, 7, "a", R.PAGE), Idle]).(books := R.Books(map[7 := R.PAGE], map[7 := {1}], map[]));
    Four(ends, [], Init(2), MADE[0], BareState([Idle, Idle]).(quotas := map[]), MADE[1],
         BareState([Reserved(1, "a", R.PAGE), Idle]), MADE[2], m, MADE[3], MadeState([Idle, Idle]));
    assert [] + [MADE[0], MADE[1], MADE[2], MADE[3]] == MADE;
  }

  lemma Two(ends: (seq<Event>, State) -> bool, es: seq<Event>, s: State, e: Event, m: State, f: Event, a: State)
    requires Extends(ends) && ends(es, s) && Stepped(s, e, m) && Stepped(m, f, a)
    ensures ends(es + [e, f], a)
  {
    assert ends(es + [e], m);
    assert ends(es + [e] + [f], a);
    assert es + [e] + [f] == es + [e, f];
  }

  lemma Four(ends: (seq<Event>, State) -> bool, es: seq<Event>, s: State, e: Event, m: State, f: Event, n: State,
             g: Event, o: State, h: Event, a: State)
    requires Extends(ends) && ends(es, s)
    requires Stepped(s, e, m) && Stepped(m, f, n) && Stepped(n, g, o) && Stepped(o, h, a)
    ensures ends(es + [e, f, g, h], a)
  {
    Two(ends, es, s, e, m, f, n);
    Two(ends, es + [e, f], n, g, o, h, a);
    assert es + [e, f] + [g, h] == es + [e, f, g, h];
  }

  // A free that is overtaken by a handoff.

  const FREE_STARTS := [Step(0, FreeCheck(1, 7)), Step(0, FreeRead)]
  const HANDOFF := [Step(1, HandCheck(2, 1, 7)), Step(1, HandRekey), Step(1, HandOwn)]
  const FREE_ENDS := [Step(0, FreeDestroy), Step(0, FreeDisown), Step(0, FreeRelease), Step(0, FreeForget)]

  /** Process 1 frees the region; meanwhile its handoff to process 2 is received. */
  const STALE_FREE := MADE + FREE_STARTS + HANDOFF + FREE_ENDS

  /** What the free has read. */
  const KNOWN := FreeKnown(1, 7, R.PAGE, Some("a"))

  lemma FreeStarts()
    ensures Stepped(MadeState([Idle, Idle]), FREE_STARTS[0], MadeState([FreeOwner(1, 7), Idle]))
    ensures Stepped(MadeState([FreeOwner(1, 7), Idle]), FREE_STARTS[1], MadeState([KNOWN, Idle]))
  {
  }

  /** The region has moved to process 2 and tenant "b". */
  function MovedState(threads: seq<Pc>): State {
    MadeState(threads).(
      books := R.Books(map[7 := R.PAGE], map[7 := {2}], map[(2, 7) := "b"]),
      quotas := map[("a", SharedRegion) := Counter(U64_MAX, 0), ("b", SharedRegion) := Counter(U64_MAX, R.PAGE)])
  }

  /** The record has moved and the owner has not. */
  function HalfMoved(pc: Pc): State {
    MovedState([pc, Rekeyed(2, 1, 7)]).(books := R.Books(map[7 := R.PAGE], map[7 := {1}], map[(2, 7) := "b"]))
  }

  lemma HandoffChecks(pc: Pc)
    ensures Stepped(MadeState([pc, Idle]), HANDOFF[0], MadeState([pc, Handing(2, 1, 7)]))
  {
  }

  lemma HandoffRekeys(pc: Pc)
    ensures Stepped(MadeState([pc, Handing(2, 1, 7)]), HANDOFF[1], HalfMoved(pc))
  {
    var r := Hand(MadeState([pc, Handing(2, 1, 7)]), 1, HandRekey);
    assert r.books.records == map[(2, 7) := "b"];
    assert r.quotas == HalfMoved(pc).quotas;
  }

  lemma HandoffOwns(pc: Pc)
    ensures Stepped(HalfMoved(pc), HANDOFF[2], MovedState([pc, Idle]))
  {
    assert {1} - {1} + {2} == {2};
  }

  lemma HandedOff(ends: (seq<Event>, State) -> bool, es: seq<Event>, pc: Pc)
    requires Extends(ends) && ends(es, MadeState([pc, Idle]))
    ensures ends(es + HANDOFF, MovedState([pc, Idle]))
  {
    HandoffChecks(pc);
    HandoffRekeys(pc);
    HandoffOwns(pc);
    Two(ends, es, MadeState([pc, Idle]), HANDOFF[0], MadeState([pc, Handing(2, 1, 7)]), HANDOFF[1], HalfMoved(pc));
    assert ends(es + [HANDOFF[0], HANDOFF[1]] + [HANDOFF[2]], MovedState([pc, Idle]));
    assert es + [HANDOFF[0], HANDOFF[1]] + [HANDOFF[2]] == es + HANDOFF;
  }

  /** The region is gone, yet its record and its charge to "b" remain. */
  function GoneState(threads: seq<Pc>): State {
    MovedState(threads).(books := R.Books(map[], map[7 := {2}], map[(2, 7) := "b"]))
  }

  lemma FreeDestroys()
    ensures Stepped(MovedState([KNOWN, Idle]), FREE_ENDS[0], GoneState([FreeGone(1, 7, R.PAGE, Some("a")), Idle]))
  {
    assert MovedState([KNOWN, Idle]).books.lens - {7} == map[];
  }

  lemma FreeDisowns()
    ensures Stepped(GoneState([FreeGone(1, 7, R.PAGE, Some("a")), Idle]), FREE_ENDS[1],
                    GoneState([FreeOwing(1, 7, R.PAGE, Some("a")), Idle]))
  {
    assert {2} - {1} == {2};
  }

  lemma FreeReleases()
    ensures Stepped(GoneState([FreeOwing(1, 7, R.PAGE, Some("a")), Idle]), FREE_ENDS[2],
                    GoneState([FreeLast(1, 7), Idle]))
  {
    var s := GoneState([FreeOwing(1, 7, R.PAGE, Some("a")), Idle]);
    assert Release(s.quotas, "a", SharedRegion, R.PAGE) == s.quotas;
  }

  lemma FreeForgets()
    ensures Stepped(GoneState([FreeLast(1, 7), Idle]), FREE_ENDS[3], GoneState([Idle, Idle]))
  {
    var records := GoneState([Idle, Idle]).books.records;
    assert records - {(1, 7)} == records;
  }

  lemma StaleFreeEnds(ends: (seq<Event>, State) -> bool)
    requires Extends(ends) && ends([], Init(2))
    ensures ends(STALE_FREE, GoneState([Idle, Idle]))
  {
    Made(ends);
    FreeStarts();
    Two(ends, MADE, MadeState([Idle, Idle]), FREE_STARTS[0], MadeState([FreeOwner(1, 7), Idle]), FREE_STARTS[1],
        MadeState([KNOWN, Idle]));
    assert MADE + [FREE_STARTS[0], FREE_STARTS[1]] == MADE + FREE_STARTS;
    HandedOff(ends, MADE + FREE_STARTS, KNOWN);
    FreeFinishes(ends, MADE + FREE_STARTS + HANDOFF);
  }

  lemma FreeFinishes(ends: (seq<Event>, State) -> bool, es: seq<Event>)
    requires Extends(ends) && ends(es, MovedState([KNOWN, Idle]))
    ensures ends(es + FREE_ENDS, GoneState([Idle, Idle]))
  {
    FreeDestroys();
    FreeDisowns();
    FreeReleases();
    FreeForgets();
    Four(ends, es, MovedState([KNOWN, Idle]), FREE_ENDS[0], GoneState([FreeGone(1, 7, R.PAGE, Some("a")), Idle]),
         FREE_ENDS[1], GoneState([FreeOwing(1, 7, R.PAGE, Some("a")), Idle]), FREE_ENDS[2],
         GoneState([FreeLast(1, 7), Idle]), FREE_ENDS[3], GoneState([Idle, Idle]));
    assert [FREE_ENDS[0], FREE_ENDS[1], FREE_ENDS[2], FREE_ENDS[3]] == FREE_ENDS;
  }

  /** No region is left, every thread is idle, and tenant "b" stays charged for a page. */
  lemma StaleFreeLeavesCharge()
    ensures IsRun(2, STALE_FREE)
    ensures var s := After(2, STALE_FREE);
            && s.threads == [Idle, Idle] && s.books.lens == map[] && s.books.records == map[(2, 7) := "b"]
            && Used(s.quotas, "b", SharedRegion) == R.PAGE && Recorded(s.books, "b") == 0
  {
    EndingExtends();
    StaleFreeEnds(Ending());
    GoneRecordsNothing();
  }

  lemma GoneRecordsNothing()
    ensures Recorded(GoneState([Idle, Idle]).books, "b") == 0
  {
    var none: map<(Pid, Rid), string>, lens: map<Rid, Len> := map[], map[];
    assert GoneState([Idle, Idle]).books.records == none[(2, 7) := "b"];
    PutDead(none, lens, (2, 7), "b", "b");
    assert R.Lengths(none, lens, "b") == map[];
  }

  // Two receivers of one region.

  const SECOND := [Step(0, HandRekey), Step(0, HandOwn)]

  /** Process 1 sent the region to processes 2 and 3, and both receives check before either passes it on. */
  const TWO_RECEIVERS := MADE + [Step(0, HandCheck(3, 1, 7))] + HANDOFF + SECOND

  function SharedState(): State {
    MovedState([Idle, Idle]).(books := R.Books(map[7 := R.PAGE], map[7 := {2, 3}], map[(2, 7) := "b"]))
  }

  lemma SecondChecks()
    ensures Stepped(MadeState([Idle, Idle]), Step(0, HandCheck(3, 1, 7)), MadeState([Handing(3, 1, 7), Idle]))
  {
  }

  lemma SecondRekeys()
    ensures Stepped(MovedState([Handing(3, 1, 7), Idle]), SECOND[0], MovedState([Rekeyed(3, 1, 7), Idle]))
  {
  }

  lemma SecondOwns()
    ensures Stepped(MovedState([Rekeyed(3, 1, 7), Idle]), SECOND[1], SharedState())
  {
    assert {2} - {1} + {3} == {2, 3};
  }

  lemma SharedEnds(ends: (seq<Event>, State) -> bool)
    requires Extends(ends) && ends([], Init(2))
    ensures ends(TWO_RECEIVERS, SharedState())
  {
    Made(ends);
    SecondChecks();
    var es := MADE + [Step(0, HandCheck(3, 1, 7))];
    assert ends(es, MadeState([Handing(3, 1, 7), Idle]));
    HandedOff(ends, es, Handing(3, 1, 7));
    SecondRekeys();
    SecondOwns();
    Two(ends, es + HANDOFF, MovedState([Handing(3, 1, 7), Idle]), SECOND[0], MovedState([Rekeyed(3, 1, 7), Idle]),
        SECOND[1], SharedState());
    assert [SECOND[0], SECOND[1]] == SECOND;
  }

  /** The region then has two owners. */
  lemma TwoReceiversShare()
    ensures IsRun(2, TWO_RECEIVERS)
    ensures var b := After(2, TWO_RECEIVERS).books; b.lens == map[7 := R.PAGE] && b.owners == map[7 := {2, 3}]
  {
    EndingExtends();
    SharedEnds(Ending());
  }
}
