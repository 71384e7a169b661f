/**
 Host queues as the runtime executes them: the registry's maps, the operation
 table and the quota counters updated in place. Every hostcall is a run of the
 interleaved model, so what holds of all runs holds of the code.
 */
module QueueCode {
  import opened Common
  import opened Quota
  import opened Tenancy
  import opened Delivery
  import opened DeliveryItems

  const METADATA_MAX_BYTES := 4096

  datatype Error = NotFound | InvalidHandle | PermissionDenied | MalformedPayload | QuotaExceeded | Timeout | Internal

  // ---------------------------------------------------------------------
  // Hostcalls by one thread, as functions on states
  // ---------------------------------------------------------------------

  /** One operation of the wake pass, with the release of the slot it freed. */
  ghost function Visited(s: State, id: OpId): State {
    if |s.threads| == 1 && s.threads[0].Passing? && id in s.threads[0].left then
      var m := Walking(s, 0, PassVisit(id));
      if m.threads[0].PassOwes? then Walking(m, 0, PassRelease) else m
    else s
  }

  ghost function VisitAll(s: State, order: seq<OpId>): State
    decreases |order|
  {
    if order == [] then s else Visited(VisitAll(s, order[..|order| - 1]), order[|order| - 1])
  }

  function PassBegun(s: State, q: Qid): State
    requires |s.threads| == 1
  {
    s.(threads := [Passing(q, s.ops.Keys)], locked := true)
  }

  /** The wake pass, taking the operations in the given order. */
  ghost function Woken(s: State, q: Qid, order: seq<OpId>): State
    requires |s.threads| == 1
  {
    VisitAll(PassBegun(s, q), order).(threads := [Idle], locked := false)
  }

  /** `HostQueueSend` on a live handle. */
  ghost function SendDone(s: State, l: Lid, item: Item, order: seq<OpId>): State
    requires s.threads == [Idle] && Live(s, l)
  {
    var q := s.kernel.handles[l];
    if CanCharge(s, q) then Woken(Sending(Sending(s, 0, SendCharge(l, item)), 0, SendPush), q, order) else s
  }

  /** `HostQueueRecv`, up to the insertion of its operation. */
  ghost function RecvHeld(s: State, l: Lid): State
    requires s.threads == [Idle]
  {
    var m := Receiving(s, 0, RecvTry(l));
    if m.threads[0].RecvGot? then Receiving(m, 0, RecvRelease) else m
  }

  /** `HostQueueRecv`, with the operation inserted under `id`. */
  ghost function RecvDone(s: State, l: Lid, id: OpId): State
    requires s.threads == [Idle] && !s.locked && id !in s.ops && id != 0
  {
    Receiving(RecvHeld(s, l), 0, RecvInsert(id))
  }

  ghost function PollDone(s: State, id: OpId, expired: bool): State
    requires s.threads == [Idle] && id in s.ops && !s.locked
  {
    var m := Polling(s, 0, Poll(id, expired));
    if m.threads[0].PollOwes? then Polling(m, 0, PollRelease) else m
  }

  /** `HostQueueCreate`: insert, publish and, once published, record the tenant. */
  ghost function MakeDone(s: State, p: Pid, q: Qid, l: Lid, tenant: string, published: bool): State
    requires s.threads == [Idle] && q !in s.kernel.queues && l !in s.kernel.handles
  {
    var m := Making(Making(s, 0, MakeQueue(p, q, l, tenant)), 0, Publish(published));
    if published then Making(m, 0, Record) else m
  }

  // ---------------------------------------------------------------------
  // They are runs of the model
  // ---------------------------------------------------------------------

  /** Some run of one host thread ends in `s`. */
  ghost predicate Reachable(s: State) {
    exists es :: IsRun(1, es) && After(1, es) == s
  }

  lemma ReachNext(s: State, e: Event)
    requires Reachable(s) && Enabled(s, e)
    ensures Reachable(Apply(s, e))
  {
    var es :| IsRun(1, es) && After(1, es) == s;
    var fs := es + [e];
    assert fs[..|fs| - 1] == es;
    assert IsRun(1, fs) && After(1, fs) == Apply(s, e);
  }

  lemma ReachMaking(s: State, act: Action)
    requires Reachable(s) && 0 < |s.threads| && Delivery.Ready(s, s.threads[0], act)
    requires act.MakeQueue? || act.Publish? || act.Record?
    ensures Reachable(Making(s, 0, act))
  {
    ReachNext(s, Step(0, act));
  }

  lemma ReachWalking(s: State, act: Action)
    requires Reachable(s) && 0 < |s.threads| && Delivery.Ready(s, s.threads[0], act)
    requires act.PassStart? || act.PassVisit? || act.PassRelease? || act.PassEnd?
    ensures Reachable(Walking(s, 0, act))
  {
    ReachNext(s, Step(0, act));
  }

  lemma ReachVisited(s: State, id: OpId)
    requires Reachable(s)
    ensures Reachable(Visited(s, id))
  {
    if |s.threads| == 1 && s.threads[0].Passing? && id in s.threads[0].left {
      ReachWalking(s, PassVisit(id));
      var m := Walking(s, 0, PassVisit(id));
      if m.threads[0].PassOwes? {
        ReachWalking(m, PassRelease);
      }
    }
  }

  lemma {:induction false} ReachAll(s: State, order: seq<OpId>)
    requires Reachable(s)
    ensures Reachable(VisitAll(s, order))
    decreases |order|
  {
    if order != [] {
      ReachAll(s, order[..|order| - 1]);
      ReachVisited(VisitAll(s, order[..|order| - 1]), order[|order| - 1]);
    }
  }

  /** What one visit does, seen from the thread and the operations. */
  lemma VisitedShape(s: State, id: OpId, q: Qid)
    requires |s.threads| == 1 && s.threads[0].Passing? && s.threads[0].queue == q
    ensures var r := Visited(s, id);
            && r.threads == [Passing(q, s.threads[0].left - {id})] && r.locked == s.locked
            && r.ops.Keys == s.ops.Keys && r.kernel.handles == s.kernel.handles
            && r.kernel.queues.Keys == s.kernel.queues.Keys && r.past.sent == s.past.sent
  {
    assert id !in s.threads[0].left ==> s.threads[0].left - {id} == s.threads[0].left;
    assert s.threads == [s.threads[0]];
  }

  lemma {:induction false} VisitAllShape(s: State, order: seq<OpId>, q: Qid)
    requires |s.threads| == 1 && s.threads[0].Passing? && s.threads[0].queue == q
    ensures var r := VisitAll(s, order);
            && r.threads == [Passing(q, s.threads[0].left - (set x | x in order))] && r.locked == s.locked
            && r.ops.Keys == s.ops.Keys && r.kernel.handles == s.kernel.handles
            && r.kernel.queues.Keys == s.kernel.queues.Keys && r.past.sent == s.past.sent
    decreases |order|
  {
    var left := s.threads[0].left;
    if order == [] {
      assert left - (set x | x in order) == left && s.threads == [s.threads[0]];
    } else {
      var n := |order| - 1;
      VisitAllShape(s, order[..n], q);
      VisitedShape(VisitAll(s, order[..n]), order[n], q);
      assert order == order[..n] + [order[n]];
      assert left - (set x | x in order[..n]) - {order[n]} == left - (set x | x in order);
    }
  }

  lemma WokenRun(s: State, q: Qid, order: seq<OpId>)
    requires Reachable(s) && s.threads == [Pushed(q)] && !s.locked && (set x | x in order) == s.ops.Keys
    ensures Reachable(Woken(s, q, order))
  {
    ReachWalking(s, PassStart);
    assert Walking(s, 0, PassStart) == PassBegun(s, q);
    ReachAll(PassBegun(s, q), order);
    VisitAllShape(PassBegun(s, q), order, q);
    var m := VisitAll(PassBegun(s, q), order);
    assert m.threads[0].left == {};
    ReachWalking(m, PassEnd);
    assert Walking(m, 0, PassEnd) == Woken(s, q, order);
  }

  /** A whole send is a run of the interleaved model. */
  lemma SendRun(s: State, l: Lid, item: Item, order: seq<OpId>)
    requires Reachable(s) && s.threads == [Idle] && Live(s, l) && !s.locked && (set x | x in order) == s.ops.Keys
    ensures Reachable(SendDone(s, l, item, order))
  {
    var q := s.kernel.handles[l];
    if CanCharge(s, q) {
      ReachNext(s, Step(0, SendCharge(l, item)));
      var m := Sending(s, 0, SendCharge(l, item));
      ReachNext(m, Step(0, SendPush));
      WokenRun(Sending(m, 0, SendPush), q, order);
    }
  }

  /** A whole receive is a run of the interleaved model. */
  lemma RecvRun(s: State, l: Lid, id: OpId)
    requires Reachable(s) && s.threads == [Idle] && !s.locked && id !in s.ops && id != 0
    ensures Reachable(RecvDone(s, l, id))
  {
    ReachNext(s, Step(0, RecvTry(l)));
    var m := Receiving(s, 0, RecvTry(l));
    if m.threads[0].RecvGot? {
      ReachNext(m, Step(0, RecvRelease));
      ReachNext(Receiving(m, 0, RecvRelease), Step(0, RecvInsert(id)));
    } else {
      ReachNext(m, Step(0, RecvInsert(id)));
    }
  }

  /** A whole queue creation is a run of the interleaved model. */
  lemma MakeRun(s: State, p: Pid, q: Qid, l: Lid, tenant: string, published: bool)
    requires Reachable(s) && s.threads == [Idle] && q !in s.kernel.queues && l !in s.kernel.handles
    ensures Reachable(MakeDone(s, p, q, l, tenant, published))
  {
    ReachMaking(s, MakeQueue(p, q, l, tenant));
    var m := Making(s, 0, MakeQueue(p, q, l, tenant));
    ReachMaking(m, Publish(published));
    if published {
      ReachMaking(Making(m, 0, Publish(true)), Record);
    }
  }

  /** A whole poll is a run of the interleaved model. */
  lemma PollRun(s: State, id: OpId, expired: bool)
    requires Reachable(s) && s.threads == [Idle] && id in s.ops && !s.locked
    ensures Reachable(PollDone(s, id, expired))
  {
    ReachNext(s, Step(0, Poll(id, expired)));
    var m := Polling(s, 0, Poll(id, expired));
    if m.threads[0].PollOwes? {
      ReachNext(m, Step(0, PollRelease));
    }
  }

  // ---------------------------------------------------------------------
  // What a wake pass achieves
  // ---------------------------------------------------------------------

  predicate Satisfied(s: State, id: OpId, q: Qid) {
    q in s.kernel.queues && (s.kernel.queues[q] == [] || !WaitsOn(s, id, q))
  }

  lemma VisitServes(s: State, id: OpId, q: Qid, other: OpId)
    requires |s.threads| == 1 && s.threads[0].Passing? && s.threads[0].queue == q && q in s.kernel.queues
    requires id in s.threads[0].left && (other == id || Satisfied(s, other, q))
    ensures Satisfied(Visited(s, id), other, q)
  {
  }

  lemma {:induction false} PassServes(s: State, order: seq<OpId>, q: Qid, id: OpId)
    requires |s.threads| == 1 && s.threads[0].Passing? && s.threads[0].queue == q && q in s.kernel.queues
    requires id in order && Chosen(order, s.threads[0].left)
    ensures Satisfied(VisitAll(s, order), id, q)
    decreases |order|
  {
    var n := |order| - 1;
    VisitAllShape(s, order[..n], q);
    var m := VisitAll(s, order[..n]);
    assert order[n] !in order[..n];
    if id in order[..n] {
      PassServes(s, order[..n], q, id);
    }
    VisitServes(m, order[n], q, id);
  }

  /** After a wake pass, the queue is empty or no operation waits on it. */
  lemma WokenServes(s: State, q: Qid, order: seq<OpId>, id: OpId)
    requires |s.threads| == 1 && q in s.kernel.queues
    requires Chosen(order, s.ops.Keys) && (set x | x in order) == s.ops.Keys
    ensures Satisfied(Woken(s, q, order), id, q)
  {
    VisitAllShape(PassBegun(s, q), order, q);
    if id in s.ops {
      assert id in (set x | x in order);
      PassServes(PassBegun(s, q), order, q, id);
    }
  }

  /** Distinct operations of the table. */
  predicate Chosen(order: seq<OpId>, ids: set<OpId>) {
    (forall x | x in order :: x in ids) && (forall i, j | 0 <= i < j < |order| :: order[i] != order[j])
  }

  lemma VisitKernel(s: State, id: OpId)
    requires KernelOk(s)
    ensures KernelOk(Visited(s, id))
  {
    if |s.threads| == 1 && s.threads[0].Passing? && id in s.threads[0].left {
      KernelWalking(s, 0, PassVisit(id));
      var m := Walking(s, 0, PassVisit(id));
      if m.threads[0].PassOwes? {
        KernelWalking(m, 0, PassRelease);
      }
    }
  }

  /** The pass that began in `s0` has taken `order` and has `left` to come. */
  ghost predicate InPass(s0: State, q: Qid, order: seq<OpId>, left: set<OpId>, s: State) {
    && s == VisitAll(s0, order) && s.threads == [Passing(q, left)] && KernelOk(s)
    && s.ops.Keys == s0.ops.Keys && Chosen(order, s0.ops.Keys)
    && left == s0.ops.Keys - (set x | x in order)
  }

  lemma PassStarts(s: State, q: Qid)
    requires |s.threads| == 1 && KernelOk(s)
    ensures InPass(PassBegun(s, q), q, [], s.ops.Keys, PassBegun(s, q))
  {
    KernelFrame(s, PassBegun(s, q));
    assert s.ops.Keys - (set x: OpId | x in []) == s.ops.Keys;
  }

  lemma PassEnds(s0: State, q: Qid, order: seq<OpId>, s: State)
    requires InPass(s0, q, order, {}, s)
    ensures (set x | x in order) == s0.ops.Keys
  {
    forall x | x in s0.ops.Keys ensures x in order {
      assert x !in s0.ops.Keys - (set y | y in order);
    }
  }

  lemma SendPushed(s: State, l: Lid, item: Item)
    requires KernelOk(s) && s.threads == [Idle] && Live(s, l) && CanCharge(s, s.kernel.handles[l])
    ensures KernelOk(Sending(Sending(s, 0, SendCharge(l, item)), 0, SendPush))
  {
    KernelSending(s, 0, SendCharge(l, item));
    KernelSending(Sending(s, 0, SendCharge(l, item)), 0, SendPush);
  }

  lemma PassNext(s0: State, q: Qid, order: seq<OpId>, left: set<OpId>, s: State, id: OpId)
    requires InPass(s0, q, order, left, s) && id in left
    ensures InPass(s0, q, order + [id], left - {id}, Visited(s, id))
    ensures id in s.ops
  {
    VisitKernel(s, id);
    VisitedShape(s, id, q);
    assert (order + [id])[..|order|] == order;
    assert left - {id} == s0.ops.Keys - (set x | x in order + [id]);
  }

  /** With one record per queue, any record found is the queue's tenant. */
  lemma TenantFound(minted: map<(Pid, Qid), string>, k: (Pid, Qid))
    requires forall j, l | j in minted && l in minted && j.1 == l.1 :: j == l
    requires k in minted
    ensures QueueTenant(minted, k.1) == Some(minted[k])
  {
  }

  // ---------------------------------------------------------------------
  // The kernel registry
  // ---------------------------------------------------------------------

  class HostQueueRegistry {
    var queues: map<Qid, seq<Item>>
    var locals: map<Lid, Qid>

    constructor ()
      ensures queues == map[] && locals == map[]
    {
      queues, locals := map[], map[];
    }

    /** The queue a handle leads to, when both are known. */
    function Find(l: Lid): Option<Qid>
      reads this
    {
      if l in locals && locals[l] in queues then Some(locals[l]) else None
    }

    method SharedId(l: Lid) returns (r: Result<Qid, Error>)
      ensures r.Ok? <==> l in locals
      ensures r.Ok? ==> r.value == locals[l]
    {
      r := if l in locals then Ok(locals[l]) else Err(NotFound);
    }

    /** `l` and `q` are the ids the memory registry hands out. */
    method Create(l: Lid, q: Qid)
      modifies this
      ensures queues == old(queues)[q := []] && locals == old(locals)[l := q]
    {
      queues := queues[q := []];
      locals := locals[l := q];
    }

    method Attach(q: Qid, l: Lid) returns (r: Result<(), Error>)
      modifies this
      ensures r.Ok? <==> q in old(queues)
      ensures queues == old(queues) && locals == if r.Ok? then old(locals)[l := q] else old(locals)
    {
      if q !in queues {
        return Err(NotFound);
      }
      locals := locals[l := q];
      r := Ok(());
    }

    method Send(l: Lid, item: Item) returns (r: Result<(), Error>)
      modifies this
      ensures locals == old(locals)
      ensures r.Ok? <==> old(Find(l)).Some?
      ensures queues == if r.Ok? then old(queues)[locals[l] := old(queues)[locals[l]] + [item]] else old(queues)
    {
      if l !in locals || locals[l] !in queues {
        return Err(NotFound);
      }
      queues := queues[locals[l] := queues[locals[l]] + [item]];
      r := Ok(());
    }

    method TryRecv(l: Lid) returns (r: Result<Option<Item>, Error>)
      modifies this
      ensures locals == old(locals)
      ensures r.Ok? <==> old(Find(l)).Some?
      ensures r.Err? ==> queues == old(queues)
      ensures r.Ok? ==> r.value.Some? == (old(queues)[locals[l]] != [])
      ensures r.Ok? && r.value.None? ==> queues == old(queues)
      ensures r.Ok? && r.value.Some? ==>
                && old(queues)[locals[l]] == [r.value.value] + old(queues)[locals[l]][1..]
                && queues == old(queues)[locals[l] := old(queues)[locals[l]][1..]]
    {
      if l !in locals || locals[l] !in queues {
        return Err(NotFound);
      }
      var entries := queues[locals[l]];
      if entries == [] {
        return Ok(None);
      }
      queues := queues[locals[l] := entries[1..]];
      r := Ok(Some(entries[0]));
    }

    method Pending(l: Lid) returns (r: Result<nat, Error>)
      ensures r.Ok? <==> Find(l).Some?
      ensures r.Ok? ==> r.value == |queues[locals[l]]|
    {
      if l !in locals || locals[l] !in queues {
        return Err(NotFound);
      }
      r := Ok(|queues[locals[l]]|);
    }
  }

  // ---------------------------------------------------------------------
  // The runtime
  // ---------------------------------------------------------------------

  datatype Completion = Ready(item: Item) | Pending | Fails(error: Error)

  /** What `begin_hostcall` reports next to the operation's id. */
  datatype Status = StatusReady | StatusPending | StatusFailed

  class QueueRuntime {
    const registry: HostQueueRegistry
    const quota: QuotaTable
    var queueTenants: map<(Pid, Qid), string>
    var operations: map<OpId, Op>
    var holders: map<OpId, Pid>
    var nextOperation: U64
    var past: Past  // history that no branch reads; compiled, since operations carry its call numbers and indices

    ghost function View(locked: bool, pc: Pc): State
      reads this, registry, quota
    {
      State(Kernel(registry.queues, registry.locals, queueTenants), quota.quotas, operations, locked, [pc], past)
    }

    constructor ()
      ensures View(false, Idle) == Init(1) && fresh(registry) && fresh(quota)
      ensures holders == map[] && nextOperation == 1
    {
      registry := new HostQueueRegistry();
      quota := new QuotaTable();
      queueTenants, operations, holders, nextOperation := map[], map[], map[], 1;
      past := Past(map[], map[], 0);
    }

    /**
     `HostQueueCreate`. `own` is the tenant of the process, `delegated` says that a
     grant of it admits the tenant asked for, and `l` and `q` are the ids the memory
     registry hands out.
     */
    method CreateQueue(p: Pid, own: Option<string>, serving: Option<string>, delegated: bool, q: Qid, l: Lid,
                       published: bool)
      returns (r: Result<Qid, Error>)
      requires q !in registry.queues && l !in registry.locals
      modifies this`queueTenants, this`past, registry
      ensures r == if serving.Some? && own.Some? && serving != own && !delegated then Err(PermissionDenied)
                   else if published then Ok(q) else Err(Internal)
      ensures r == Err(PermissionDenied) ==> View(false, Idle) == old(View(false, Idle))
      ensures r != Err(PermissionDenied) ==>
                var tenant := if serving.Some? then serving.value else if own.Some? then own.value else "";
                && View(false, Idle) == MakeDone(old(View(false, Idle)), p, q, l, tenant, published)
                && registry.queues == old(registry.queues)[q := []] && registry.locals == old(registry.locals)[l := q]
                && queueTenants == if published then old(queueTenants)[(p, q) := tenant] else old(queueTenants)
    {
      var principal := Principal(own, serving, delegated);
      if principal.None? {
        return Err(PermissionDenied);
      }
      var tenant := principal.value;
      registry.Create(l, q);
      past := past.(sent := past.sent[q := []], takers := past.takers[q := []]);
      if !published {
        return Err(Internal);
      }
      queueTenants := queueTenants[(p, q) := tenant];
      r := Ok(q);
    }

    method OwnerTenant(q: Qid) returns (t: Option<string>)
      requires forall j, l | j in queueTenants && l in queueTenants && j.1 == l.1 :: j == l
      ensures t == QueueTenant(queueTenants, q)
    {
      if k :| k in queueTenants && k.1 == q {
        TenantFound(queueTenants, k);
        t := Some(queueTenants[k]);
      } else {
        t := None;
      }
    }

    /** `charge_queue_item`: an admitted item takes one slot of the owner's tenant. */
    method ChargeItem(q: Qid) returns (ok: bool)
      requires forall j, l | j in queueTenants && l in queueTenants && j.1 == l.1 :: j == l
      modifies quota
      ensures ok <==> old(CanCharge(View(false, Idle), q))
      ensures quota.quotas == if ok then old(Charge(View(false, Idle), q)) else old(quota.quotas)
      ensures (forall k | k in queueTenants :: k.1 != q) ==> ok
      ensures forall k | k in queueTenants && k.1 == q ::
                var t, quotas := queueTenants[k], old(quota.quotas);
                ok <==> t == "" || Used(quotas, t, HostQueue) < Entry(quotas, (t, HostQueue)).limit
    {
      var t := OwnerTenant(q);
      if t.None? {
        return true;
      }
      AdmitsExactly(quota.quotas, t.value, HostQueue, 1);
      ok := quota.TryConsume(t.value, HostQueue, 1);
    }

    method ReleaseItem(q: Qid, ghost locked: bool, ghost pc: Pc)
      requires forall j, l | j in queueTenants && l in queueTenants && j.1 == l.1 :: j == l
      modifies quota
      ensures quota.quotas == old(Uncharge(View(locked, pc), q))
    {
      var t := OwnerTenant(q);
      if t.Some? {
        quota.Return(t.value, HostQueue, 1);
      }
    }

    /** A fresh non-zero id, searching upward and wrapping past zero. `None` is the panic. */
    method NextOperationId() returns (id: Option<U64>)
      requires nextOperation != 0
      modifies this`nextOperation
      ensures nextOperation != 0
      ensures id.Some? ==> id.value != 0 && id.value !in operations
      ensures id.None? ==> forall x: OpId | 0 < x <= U64_MAX :: x in operations
    {
      var first, wrapped := nextOperation, false;
      while true
        invariant nextOperation != 0
        invariant !wrapped ==> first <= nextOperation
        invariant wrapped ==> nextOperation < first && forall x | first <= x <= U64_MAX :: x in operations
        invariant forall x | (if wrapped then 0 else first - 1) < x < nextOperation :: x in operations
        decreases !wrapped, if wrapped then first - nextOperation else U64_MAX - nextOperation
      {
        var candidate := nextOperation;
        if candidate < U64_MAX {
          nextOperation := candidate + 1;
        } else {
          nextOperation := 1;
          wrapped := true;
        }
        if candidate !in operations {
          return Some(candidate);
        }
        if nextOperation == first {
          return None;
        }
      }
    }

    /** Pops for a waiting operation on `q`. The slot of a popped item is still to be released. */
    method Deliver(id: OpId, q: Qid, ghost left: set<OpId>) returns (got: bool)
      requires KernelOk(View(true, Passing(q, left))) && id in left && id in operations
      requires WaitsOn(View(true, Passing(q, left)), id, q)
      modifies this`operations, this`past, registry
      ensures got <==> old(registry.queues)[q] != []
      ensures View(true, if got then PassOwes(q, left - {id}) else Passing(q, left - {id}))
              == Walking(old(View(true, Passing(q, left))), 0, PassVisit(id))
    {
      var op := operations[id];
      var taken := past.takers[q];
      var item := registry.TryRecv(op.state.handle);
      got := item.Ok? && item.value.Some?;
      if got {
        past := past.(takers := past.takers[q := taken + [Pop(op.call, item.value.value)]]);
        operations := operations[id := op.(state := Done(item.value.value, q, |taken|))];
      }
    }

    /** One operation of the wake pass. */
    method Visit(id: OpId, q: Qid, ghost left: set<OpId>)
      requires KernelOk(View(true, Passing(q, left))) && id in left && id in operations
      modifies this`operations, this`past, registry, quota
      ensures View(true, Passing(q, left - {id})) == Visited(old(View(true, Passing(q, left))), id)
    {
      var op := operations[id];
      if op.state.Waiting? {
        var shared := registry.SharedId(op.state.handle);
        if shared == Ok(q) {
          var got := Deliver(id, q, left);
          if got {
            ReleaseItem(q, true, PassOwes(q, left - {id}));
          }
        }
      }
    }

    /** `wake_host_queue_waiters`. The operations come in no particular order. */
    method WakeWaiters(q: Qid) returns (ghost order: seq<OpId>)
      requires KernelOk(View(false, Pushed(q))) && q in registry.queues
      modifies this`operations, this`past, registry, quota
      ensures View(false, Idle) == Woken(old(View(false, Pushed(q))), q, order)
      ensures Chosen(order, old(operations.Keys)) && (set x | x in order) == old(operations.Keys)
    {
      var left := operations.Keys;
      order := [];
      ghost var s0 := View(true, Passing(q, left));
      PassStarts(View(false, Pushed(q)), q);
      while left != {}
        invariant InPass(s0, q, order, left, View(true, Passing(q, left)))
        decreases left
      {
        var id :| id in left;
        PassNext(s0, q, order, left, View(true, Passing(q, left)), id);
        Visit(id, q, left);
        order, left := order + [id], left - {id};
      }
      PassEnds(s0, q, order, View(true, Passing(q, {})));
    }

    /** Reserves a pipe slot and pushes. */
    method Push(l: Lid, item: Item) returns (ok: bool)
      requires KernelOk(View(false, Idle)) && l in registry.locals
      modifies this`past, registry, quota
      ensures registry.locals == old(registry.locals)
      ensures ok <==> old(CanCharge(View(false, Idle), registry.locals[l]))
      ensures !ok ==> View(false, Idle) == old(View(false, Idle))
      ensures ok ==> View(false, Pushed(registry.locals[l])) ==
                     Sending(Sending(old(View(false, Idle)), 0, SendCharge(l, item)), 0, SendPush)
    {
      var q := registry.locals[l];
      ok := ChargeItem(q);
      if ok {
        var sent := registry.Send(l, item);
        past := past.(sent := past.sent[q := past.sent[q] + [item]]);
      }
    }

    /** `HostQueueSend`. A denied send changes nothing; an admitted one also serves the waiters. */
    method Send(p: Pid, l: Lid, value: nat, metadata: seq<nat>) returns (r: Result<(), Error>, ghost order: seq<OpId>)
      requires KernelOk(View(false, Idle))
      modifies this`operations, this`past, registry, quota
      ensures r.Err? ==> View(false, Idle) == old(View(false, Idle))
      ensures r == if |metadata| > METADATA_MAX_BYTES then Err(MalformedPayload)
                   else if l !in old(registry.locals) then Err(NotFound)
                   else if !old(CanCharge(View(false, Idle), registry.locals[l])) then Err(QuotaExceeded)
                   else Ok(())
      ensures r.Ok? ==>
                && View(false, Idle) == SendDone(old(View(false, Idle)), l, Item(p, value, metadata), order)
                && Chosen(order, old(operations.Keys)) && (set x | x in order) == old(operations.Keys)
    {
      order := [];
      if |metadata| > METADATA_MAX_BYTES {
        r := Err(MalformedPayload);
        return;
      }
      var shared := registry.SharedId(l);
      if shared.Err? {
        r := Err(NotFound);
        return;
      }
      ghost var s := View(false, Idle);
      var pushed := Push(l, Item(p, value, metadata));
      if !pushed {
        r := Err(QuotaExceeded);
        return;
      }
      SendPushed(s, l, Item(p, value, metadata));
      order := WakeWaiters(shared.value);
      r := Ok(());
    }

    /** The dispatch of a receive, up to the release of the slot of a popped item. */
    method Dispatch(l: Lid) returns (call: nat, state: OpState)
      requires KernelOk(View(false, Idle))
      modifies this`past, registry
      ensures state == Failed(false) <==> l !in old(registry.locals)
      ensures state == Waiting(l, false) <==>
              l in old(registry.locals) && old(registry.queues)[old(registry.locals)[l]] == []
      ensures state == Failed(false) || state == Waiting(l, false) || state.Done?
      ensures state.Done? ==>
                && state.queue == old(registry.locals)[l] && state.item == old(registry.queues)[state.queue][0]
                && registry.queues == old(registry.queues)[state.queue := old(registry.queues)[state.queue][1..]]
      ensures View(false, if state.Waiting? then RecvEmpty(l, call)
                          else if state.Done? then RecvGot(call, state) else RecvReady(call, state))
              == Receiving(old(View(false, Idle)), 0, RecvTry(l))
    {
      call := past.calls;
      past := past.(calls := call + 1);
      var shared := registry.SharedId(l);
      if shared.Err? {
        return call, Failed(false);
      }
      var q := shared.value;
      var taken := past.takers[q];
      var item := registry.TryRecv(l);
      if item.value.None? {
        state := Waiting(l, false);
      } else {
        state := Done(item.value.value, q, |taken|);
        past := past.(takers := past.takers[q := taken + [Pop(call, item.value.value)]]);
      }
    }

    /** Fails on an unknown handle, pops at once, or leaves a waiting operation to insert. */
    method Take(l: Lid) returns (call: nat, state: OpState)
      requires KernelOk(View(false, Idle))
      modifies this`past, registry, quota
      ensures state == Failed(false) <==> l !in old(registry.locals)
      ensures state.Done? <==> l in old(registry.locals) && old(registry.queues)[old(registry.locals)[l]] != []
      ensures state.Done? ==> state.item == old(registry.queues)[old(registry.locals)[l]][0]
      ensures state == Failed(false) || state == Waiting(l, false) || state.Done?
      ensures View(false, if state.Waiting? then RecvEmpty(l, call) else RecvReady(call, state))
              == RecvHeld(old(View(false, Idle)), l)
    {
      call, state := Dispatch(l);
      if state.Done? {
        ReleaseItem(state.queue, false, RecvGot(call, state));
      }
    }

    /** `HostQueueRecv` and the operation recorded for it, whatever its outcome. */
    method Recv(p: Pid, l: Lid) returns (status: Status, id: OpId)
      requires KernelOk(View(false, Idle)) && nextOperation != 0
      requires exists x: OpId :: 0 < x <= U64_MAX && x !in operations
      modifies this, registry, quota
      ensures nextOperation != 0 && id != 0 && id !in old(operations)
      ensures View(false, Idle) == RecvDone(old(View(false, Idle)), l, id)
      ensures holders == old(holders)[id := p]
      ensures status == if l !in old(registry.locals) then StatusFailed
                        else if old(registry.queues)[old(registry.locals)[l]] == [] then StatusPending
                        else StatusReady
    {
      var call, state := Take(l);
      status := if state.Failed? then StatusFailed else if state.Waiting? then StatusPending else StatusReady;
      id := Insert(p, Op(call, state));
    }

    method Insert(p: Pid, op: Op) returns (id: OpId)
      requires nextOperation != 0
      requires exists x: OpId :: 0 < x <= U64_MAX && x !in operations
      modifies this`operations, this`holders, this`nextOperation
      ensures nextOperation != 0 && id != 0 && id !in old(operations)
      ensures operations == old(operations)[id := op] && holders == old(holders)[id := p]
    {
      ghost var free: OpId :| 0 < free <= U64_MAX && free !in operations;
      var next := NextOperationId();
      assert next.Some? by {
        assert free !in operations;
      }
      id := next.value;
      operations := operations[id := op];
      holders := holders[id := p];
    }

    /** `poll_hostcall` of a receive. `expired` says its deadline has passed. */
    method PollOperation(p: Pid, id: OpId, expired: bool) returns (c: Completion)
      requires KernelOk(View(false, Idle)) && holders.Keys == operations.Keys
      modifies this`operations, this`past, registry, quota
      ensures id !in old(operations) ==> c == Fails(InvalidHandle)
      ensures id in old(operations) && holders[id] != p ==> c == Fails(PermissionDenied)
      ensures c == Fails(InvalidHandle) || c == Fails(PermissionDenied) ==> View(false, Idle) == old(View(false, Idle))
      ensures id in old(operations) && holders[id] == p ==>
                && View(false, Idle) == PollDone(old(View(false, Idle)), id, expired)
                && id in operations
                && (c.Ready? <==> operations[id].state.Done?)
                && (c.Ready? ==> c.item == operations[id].state.item)
                && (c.Pending? ==> operations[id].state.Waiting?)
                && (operations[id].state.Failed? ==>
                      c == Fails(if operations[id].state.timedOut then Timeout else NotFound))
      ensures id in old(operations) && holders[id] == p && old(operations)[id].state.Waiting? ==>
                var l, locals, queues := old(operations)[id].state.handle, old(registry.locals), old(registry.queues);
                c == if l !in locals || locals[l] !in queues then Fails(NotFound)
                     else if queues[locals[l]] != [] then Ready(queues[locals[l]][0])
                     else if expired then Fails(Timeout)
                     else Pending
    {
      if id !in operations {
        return Fails(InvalidHandle);
      }
      if holders[id] != p {
        return Fails(PermissionDenied);
      }
      var op := operations[id];
      match op.state {
        case Done(item, _, _) => c := Ready(item);
        case Failed(timedOut) => c := Fails(if timedOut then Timeout else NotFound);
        case Waiting(l, _) => c := PollWaiting(id, l, expired);
      }
    }

    method PollWaiting(id: OpId, l: Lid, expired: bool) returns (c: Completion)
      requires KernelOk(View(false, Idle)) && id in operations && operations[id].state.Waiting?
      requires operations[id].state.handle == l
      modifies this`operations, this`past, registry, quota
      ensures View(false, Idle) == PollDone(old(View(false, Idle)), id, expired)
      ensures id in operations && (c.Ready? <==> operations[id].state.Done?)
      ensures c.Ready? ==> c.item == operations[id].state.item
      ensures c.Pending? ==> operations[id].state.Waiting?
      ensures c.Fails? ==> c.error == Timeout || c.error == NotFound
      ensures operations[id].state.Failed? ==> operations[id].state.timedOut && c == Fails(Timeout)
      ensures var locals, queues := old(registry.locals), old(registry.queues);
              c == if l !in locals || locals[l] !in queues then Fails(NotFound)
                   else if queues[locals[l]] != [] then Ready(queues[locals[l]][0])
                   else if expired then Fails(Timeout)
                   else Pending
    {
      var op := operations[id];
      var item := registry.TryRecv(l);
      if item.Err? {
        return Fails(NotFound);
      }
      var q := registry.locals[l];
      if item.value.Some? {
        var taken := past.takers[q];
        past := past.(takers := past.takers[q := taken + [Pop(op.call, item.value.value)]]);
        operations := operations[id := op.(state := Done(item.value.value, q, |taken|))];
        ReleaseItem(q, false, PollOwes(q));
        c := Ready(item.value.value);
      } else if expired {
        operations := operations[id := op.(state := Failed(true))];
        c := Fails(Timeout);
      } else {
        operations := operations[id := op.(state := op.state.(polled := true))];
        c := Pending;
      }
    }

    /** `drop_hostcall`. Only the holder's drop removes the operation. */
    method DropOperation(p: Pid, id: OpId) returns (dropped: bool)
      requires holders.Keys == operations.Keys
      modifies this`operations, this`holders
      ensures dropped <==> id in old(operations) && old(holders)[id] == p
      ensures dropped ==> View(false, Idle) == Apply(old(View(false, Idle)), Drop(id))
      ensures !dropped ==> View(false, Idle) == old(View(false, Idle))
      ensures operations == if dropped then old(operations) - {id} else old(operations)
      ensures holders == if dropped then old(holders) - {id} else old(holders)
      ensures holders.Keys == operations.Keys
    {
      dropped := id in operations && holders[id] == p;
      if dropped {
        operations, holders := operations - {id}, holders - {id};
      }
    }
  }
}
