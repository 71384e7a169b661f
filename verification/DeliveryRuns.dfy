/** Runs that show what the host queues do not promise. */
module DeliveryRuns {
  import opened Common
  import opened Sums
  import opened Delivery
  import opened DeliverySlots
  import opened DeliveryWaiters

  const ITEM := Item(2, 9, [])

  /** A send by thread 1 that meets no operation. */
  function Sent(l: Lid): seq<Event> {
    [Step(1, SendCharge(l, ITEM)), Step(1, SendPush), Step(1, PassStart), Step(1, PassEnd)]
  }

  /** The queue `q` with the item of that send. */
  function Holding(s: State, q: Qid): State
    requires q in s.kernel.queues && q in s.past.sent
  {
    s.(kernel := s.kernel.(queues := s.kernel.queues[q := s.kernel.queues[q] + [ITEM]]),
       past := s.past.(sent := s.past.sent[q := s.past.sent[q] + [ITEM]]))
  }

  lemma SendPushes(es: seq<Event>, s: State, l: Lid, pc: Pc)
    requires IsRun(2, es) && After(2, es) == s && s.threads == [pc, Idle]
    requires Live(s, l) && CanCharge(s, s.kernel.handles[l]) && Charge(s, s.kernel.handles[l]) == s.quotas
    ensures IsRun(2, es + Sent(l)[..2])
    ensures After(2, es + Sent(l)[..2]) ==
            Holding(s, s.kernel.handles[l]).(threads := [pc, Pushed(s.kernel.handles[l])])
  {
    var q := s.kernel.handles[l];
    RunMore(2, es, s, Step(1, SendCharge(l, ITEM)));
    var s1 := s.(threads := [pc, Charged(q, ITEM)]);
    assert Apply(s, Step(1, SendCharge(l, ITEM))) == s1;
    RunMore(2, es + [Step(1, SendCharge(l, ITEM))], s1, Step(1, SendPush));
    assert es + [Step(1, SendCharge(l, ITEM))] + [Step(1, SendPush)] == es + Sent(l)[..2];
  }

  lemma SendPasses(es: seq<Event>, s: State, pc: Pc, q: Qid)
    requires IsRun(2, es) && After(2, es) == s
    requires s.threads == [pc, Pushed(q)] && s.ops == map[] && !s.locked
    ensures var fs := es + [Step(1, PassStart)] + [Step(1, PassEnd)];
            IsRun(2, fs) && After(2, fs) == s.(threads := [pc, Idle])
  {
    RunMore(2, es, s, Step(1, PassStart));
    assert s.ops.Keys == {};
    var m := s.(threads := [pc, Passing(q, {})], locked := true);
    assert Walking(s, 1, PassStart) == m;
    RunMore(2, es + [Step(1, PassStart)], m, Step(1, PassEnd));
  }

  lemma Sends(es: seq<Event>, s: State, l: Lid, pc: Pc)
    requires IsRun(2, es) && After(2, es) == s && s.threads == [pc, Idle] && s.ops == map[] && !s.locked
    requires Live(s, l) && CanCharge(s, s.kernel.handles[l]) && Charge(s, s.kernel.handles[l]) == s.quotas
    ensures IsRun(2, es + Sent(l)) && After(2, es + Sent(l)) == Holding(s, s.kernel.handles[l])
  {
    var q := s.kernel.handles[l];
    SendPushes(es, s, l, pc);
    SendPasses(es + Sent(l)[..2], Holding(s, q).(threads := [pc, Pushed(q)]), pc, q);
    assert es + Sent(l)[..2] + [Step(1, PassStart)] + [Step(1, PassEnd)] == es + Sent(l);
  }

  /** A queue made and published by thread 0, and attached by a second process. */
  function Offered(tenant: string): seq<Event> {
    [Step(0, MakeQueue(1, 7, 5, tenant)), Step(0, Publish(true)), Attach(7, 6)]
  }

  function OfferedState(tenant: string): State {
    State(Kernel(map[7 := []], map[5 := 7, 6 := 7], map[]), map[], map[], false,
          [Published(7, 1, tenant), Idle], Past(map[7 := []], map[7 := []], 0))
  }

  lemma OfferedRun(tenant: string)
    ensures IsRun(2, Offered(tenant)) && After(2, Offered(tenant)) == OfferedState(tenant)
  {
    var es := Offered(tenant);
    var s1 := OfferedState(tenant).(threads := [Inserted(7, 1, tenant), Idle],
                                    kernel := Kernel(map[7 := []], map[5 := 7], map[]));
    RunMore(2, [], Init(2), es[0]);
    assert Apply(Init(2), es[0]) == s1;
    RunMore(2, es[..1], s1, es[1]);
    assert es[..1] + [es[1]] == es[..2];
    var s2 := s1.(threads := [Published(7, 1, tenant), Idle]);
    assert Apply(s1, es[1]) == s2;
    RunMore(2, es[..2], s2, es[2]);
    assert es[..2] + [es[2]] == es;
  }

  // ---------------------------------------------------------------------
  // A tenant recorded too late
  // ---------------------------------------------------------------------

  /** The second process sends before the maker has recorded the queue's tenant. */
  function Late(): seq<Event> {
    Offered("a") + Sent(6) + [Step(0, Record)]
  }

  /**
   The counter falls behind for good: every thread is idle, the tenant's queue
   holds an item, and the tenant is charged for none.
   */
  lemma LateRecordUndercharges()
    ensures IsRun(2, Late())
    ensures var s := After(2, Late());
            && s.threads == [Idle, Idle] && s.kernel.queues == map[7 := [ITEM]]
            && Usage(s, "a") == 0 && InUse(s, "a") == 1 && Undelivered(s, "a") == 1
  {
    LateRun();
    OneItem(LateState());
  }

  function LateState(): State {
    State(Kernel(map[7 := [ITEM]], map[5 := 7, 6 := 7], map[(1, 7) := "a"]), map[], map[], false,
          [Idle, Idle], Past(map[7 := [ITEM]], map[7 := []], 0))
  }

  lemma LateRun()
    ensures IsRun(2, Late()) && After(2, Late()) == LateState()
  {
    LateSent();
    var s := Holding(OfferedState("a"), 7);
    RunMore(2, Offered("a") + Sent(6), s, Step(0, Record));
    LateRecorded(s);
  }

  lemma LateSent()
    ensures IsRun(2, Offered("a") + Sent(6)) && After(2, Offered("a") + Sent(6)) == Holding(OfferedState("a"), 7)
  {
    OfferedRun("a");
    var s := OfferedState("a");
    assert QueueTenant(s.kernel.minted, 7) == None;
    Sends(Offered("a"), s, 6, s.threads[0]);
  }

  lemma LateRecorded(s: State)
    requires s == Holding(OfferedState("a"), 7)
    ensures Making(s, 0, Record) == LateState()
  {
    JustItem(OfferedState("a").kernel.queues);
    JustItem(OfferedState("a").past.sent);
    assert s.threads[0 := Idle] == [Idle, Idle];
  }

  lemma JustItem(queues: map<Qid, seq<Item>>)
    requires queues == map[7 := []]
    ensures queues[7 := queues[7] + [ITEM]] == map[7 := [ITEM]]
  {
    assert queues[7] + [ITEM] == [ITEM];
  }

  lemma OneItem(s: State)
    requires s.threads == [Idle, Idle] && s.kernel.minted == map[(1, 7) := "a"] && s.kernel.queues == map[7 := [ITEM]]
    ensures InUse(s, "a") == 1 && Undelivered(s, "a") == 1
  {
    assert (1, 7) in s.kernel.minted;
    assert QueueTenant(s.kernel.minted, 7) == Some("a");
    NoneHeld(s.kernel.queues, s.threads);
    var share := Share(Lengths(s.kernel.queues), s.kernel.minted, "a");
    assert share.Keys == {7} && share[7] == 1;
    TotalOne(share, 7);
  }

  lemma TotalOne(m: map<Qid, nat>, q: Qid)
    requires m.Keys == {q}
    ensures Total(m) == m[q]
  {
    TotalRemove(m, q);
    assert m - {q} == map[];
  }

  // ---------------------------------------------------------------------
  // A receive inserted too late
  // ---------------------------------------------------------------------

  /** The send falls between the receive's empty pop and the insertion of its operation. */
  function Unseen(): seq<Event> {
    UnseenStart() + Sent(6) + [Step(0, RecvInsert(1))]
  }

  function UnseenStart(): seq<Event> {
    Offered("") + [Step(0, Record)] + [Step(0, RecvTry(5))]
  }

  function UnseenState(): State {
    OfferedState("").(threads := [RecvEmpty(5, 0), Idle], past := OfferedState("").past.(calls := 1),
                      kernel := OfferedState("").kernel.(minted := map[(1, 7) := ""]))
  }

  lemma UnseenBegins()
    ensures IsRun(2, UnseenStart()) && After(2, UnseenStart()) == UnseenState()
  {
    OfferedRun("");
    var s := OfferedState("");
    RunMore(2, Offered(""), s, Step(0, Record));
    var s1 := s.(threads := [Idle, Idle], kernel := s.kernel.(minted := map[(1, 7) := ""]));
    assert Making(s, 0, Record) == s1;
    RunMore(2, Offered("") + [Step(0, Record)], s1, Step(0, RecvTry(5)));
    assert Receiving(s1, 0, RecvTry(5)) == UnseenState();
  }

  /** The receive waits on a queue that holds an item, and every thread is idle. */
  lemma UnpolledCanBeStranded()
    ensures IsRun(2, Unseen())
    ensures var s := After(2, Unseen());
            && s.threads == [Idle, Idle] && s.kernel.queues == map[7 := [ITEM]] && Stranded(s, 1, 7)
  {
    UnseenSent();
    var es, s := UnseenStart(), Holding(UnseenState(), 7);
    RunMore(2, es + Sent(6), s, Step(0, RecvInsert(1)));
    var r := Receiving(s, 0, RecvInsert(1));
    assert r.threads == [Idle, Idle];
    JustItem(UnseenState().kernel.queues);
  }

  lemma UnseenSent()
    ensures IsRun(2, UnseenStart() + Sent(6)) && After(2, UnseenStart() + Sent(6)) == Holding(UnseenState(), 7)
  {
    UnseenBegins();
    var s := UnseenState();
    assert (1, 7) in s.kernel.minted;
    assert QueueTenant(s.kernel.minted, 7) == Some("");
    Sends(UnseenStart(), s, 6, s.threads[0]);
  }
}
