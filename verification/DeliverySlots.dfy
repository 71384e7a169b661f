/** Pipe-slot conservation: what each tenant is charged for host queues, over every run. */
module DeliverySlots {
  import opened Common
  import opened Sums
  import opened Quota
  import opened Delivery
  import opened DeliveryItems

  // ---------------------------------------------------------------------
  // Slots in use
  // ---------------------------------------------------------------------

  /** The queue a thread holds a slot of, outside the queue itself. */
  function Owes(pc: Pc): Option<Qid> {
    match pc
    case Charged(q, _) => Some(q)
    case PassOwes(q, _) => Some(q)
    case RecvGot(_, done) => if done.Done? then Some(done.queue) else None
    case PollOwes(q) => Some(q)
    case _ => None
  }

  function Weight(pc: Pc, q: Qid): nat {
    if Owes(pc) == Some(q) then 1 else 0
  }

  function OwedOn(threads: seq<Pc>, q: Qid): nat {
    if threads == [] then 0 else Weight(threads[0], q) + OwedOn(threads[1..], q)
  }

  /** Slots in use: the queued items and the slots held mid-call. */
  function Loads(queues: map<Qid, seq<Item>>, threads: seq<Pc>): map<Qid, nat> {
    map q | q in queues :: |queues[q]| + OwedOn(threads, q)
  }

  function Lengths(queues: map<Qid, seq<Item>>): map<Qid, nat> {
    map q | q in queues :: |queues[q]|
  }

  /** The part of `loads` that falls on the tenant. */
  ghost function Share(loads: map<Qid, nat>, minted: map<(Pid, Qid), string>, t: string): map<Qid, nat> {
    map q | q in loads && QueueTenant(minted, q) == Some(t) :: loads[q]
  }

  /** The slots in use by the tenant's queues. */
  ghost function InUse(s: State, t: string): nat {
    Total(Share(Loads(s.kernel.queues, s.threads), s.kernel.minted, t))
  }

  function Usage(s: State, t: string): nat {
    Used(s.quotas, t, HostQueue)
  }

  /** How far the tenant's counter may be from the slots in use. */
  ghost predicate Balanced(s: State, t: string) {
    Usage(s, t) <= InUse(s, t)
  }

  ghost predicate Exact(s: State, t: string) {
    Usage(s, t) == InUse(s, t)
  }

  /** The step keeps the bound, and the equality if it held. */
  ghost predicate Keeps(s: State, r: State, t: string) {
    (Balanced(s, t) ==> Balanced(r, t)) && (Exact(s, t) ==> Exact(r, t))
  }

  /** Slots are only held on queues that exist. */
  predicate Placed(queues: map<Qid, seq<Item>>, threads: seq<Pc>) {
    forall i | 0 <= i < |threads| :: Owes(threads[i]).Some? ==> Owes(threads[i]).value in queues
  }

  // ---------------------------------------------------------------------
  // Counting
  // ---------------------------------------------------------------------

  lemma {:induction false} OwedUpdate(threads: seq<Pc>, i: nat, pc: Pc, q: Qid)
    requires i < |threads|
    ensures OwedOn(threads[i := pc], q) + Weight(threads[i], q) == OwedOn(threads, q) + Weight(pc, q)
  {
    if i > 0 {
      OwedUpdate(threads[1..], i - 1, pc, q);
      assert threads[i := pc][1..] == threads[1..][i - 1 := pc];
    } else {
      assert threads[i := pc][1..] == threads[1..];
    }
  }

  lemma {:induction false} OwedNone(threads: seq<Pc>, q: Qid)
    requires forall i | 0 <= i < |threads| :: Owes(threads[i]) != Some(q)
    ensures OwedOn(threads, q) == 0
  {
    if threads != [] {
      OwedNone(threads[1..], q);
    }
  }

  /** One thread and one queue change: only that queue's load moves. */
  lemma LoadsOne(queues: map<Qid, seq<Item>>, threads: seq<Pc>, i: nat, pc: Pc, q: Qid, items: seq<Item>)
    returns (v: nat)
    requires i < |threads| && q in queues
    requires forall p | p != q :: Weight(pc, p) == Weight(threads[i], p)
    ensures v + |queues[q]| + Weight(threads[i], q) == Loads(queues, threads)[q] + |items| + Weight(pc, q)
    ensures Loads(queues[q := items], threads[i := pc]) == Loads(queues, threads)[q := v]
  {
    forall p ensures OwedOn(threads[i := pc], p) + Weight(threads[i], p) == OwedOn(threads, p) + Weight(pc, p) {
      OwedUpdate(threads, i, pc, p);
    }
    v := |items| + OwedOn(threads[i := pc], q);
  }

  lemma ShareUpdate(loads: map<Qid, nat>, minted: map<(Pid, Qid), string>, t: string, q: Qid, v: nat)
    requires q in loads
    ensures if QueueTenant(minted, q) == Some(t)
            then Total(Share(loads[q := v], minted, t)) + loads[q] == Total(Share(loads, minted, t)) + v
            else Total(Share(loads[q := v], minted, t)) == Total(Share(loads, minted, t))
  {
    var m := Share(loads, minted, t);
    if QueueTenant(minted, q) == Some(t) {
      assert Share(loads[q := v], minted, t) == m[q := v];
      TotalUpdate(m, q, v);
    } else {
      assert Share(loads[q := v], minted, t) == m;
    }
  }

  // ---------------------------------------------------------------------
  // One step
  // ---------------------------------------------------------------------

  /** Thread `i` moves to `pc`, and queue `q` now holds `items`. */
  ghost predicate Touches(s: State, r: State, i: nat, pc: Pc, q: Qid, items: seq<Item>) {
    && i < |s.threads| && q in s.kernel.queues && r.threads == s.threads[i := pc]
    && r.kernel.queues == s.kernel.queues[q := items]
    && r.kernel.minted == s.kernel.minted
    && (Owes(s.threads[i]).Some? ==> Owes(s.threads[i]).value == q)
    && (Owes(pc).Some? ==> Owes(pc).value == q)
  }

  /** How the tenant's slots in use change. */
  lemma Shifted(queues: map<Qid, seq<Item>>, threads: seq<Pc>, minted: map<(Pid, Qid), string>,
                i: nat, pc: Pc, q: Qid, items: seq<Item>, t: string)
    requires i < |threads| && q in queues
    requires forall p | p != q :: Weight(pc, p) == Weight(threads[i], p)
    ensures var old_ := Total(Share(Loads(queues, threads), minted, t));
            var new_ := Total(Share(Loads(queues[q := items], threads[i := pc]), minted, t));
            if QueueTenant(minted, q) == Some(t)
            then new_ + |queues[q]| + Weight(threads[i], q) == old_ + |items| + Weight(pc, q)
            else new_ == old_
  {
    var v := LoadsOne(queues, threads, i, pc, q, items);
    ShareUpdate(Loads(queues, threads), minted, t, q, v);
  }

  /** A slot moves between the queue and the thread, or none changes hands. */
  lemma SlotMoves(s: State, r: State, i: nat, pc: Pc, q: Qid, items: seq<Item>, t: string)
    requires Touches(s, r, i, pc, q, items) && r.quotas == s.quotas
    requires |items| + Weight(pc, q) == |s.kernel.queues[q]| + Weight(s.threads[i], q)
    ensures Keeps(s, r, t)
  {
    Shifted(s.kernel.queues, s.threads, s.kernel.minted, i, pc, q, items, t);
  }

  /** A slot is reserved. */
  lemma SlotCharged(s: State, r: State, i: nat, pc: Pc, q: Qid, t: string)
    requires t != "" && q in s.kernel.queues && Touches(s, r, i, pc, q, s.kernel.queues[q])
    requires Owes(s.threads[i]).None? && Owes(pc).Some?
    requires CanCharge(s, q) && r.quotas == Charge(s, q)
    ensures Keeps(s, r, t)
  {
    Shifted(s.kernel.queues, s.threads, s.kernel.minted, i, pc, q, s.kernel.queues[q], t);
    if QueueTenant(s.kernel.minted, q) == Some(t) {
      AdmittedIsExact(s.quotas, t, HostQueue, 1);
    }
  }

  /** A slot is given back. */
  lemma SlotReleased(s: State, r: State, i: nat, pc: Pc, q: Qid, t: string)
    requires t != "" && q in s.kernel.queues && Touches(s, r, i, pc, q, s.kernel.queues[q])
    requires Owes(s.threads[i]).Some? && Owes(pc).None?
    requires r.quotas == Uncharge(s, q)
    ensures Keeps(s, r, t)
  {
    Shifted(s.kernel.queues, s.threads, s.kernel.minted, i, pc, q, s.kernel.queues[q], t);
  }

  lemma SlotsKept(s: State, r: State, t: string)
    requires r.quotas == s.quotas && r.kernel.minted == s.kernel.minted
    requires Loads(r.kernel.queues, r.threads) == Loads(s.kernel.queues, s.threads)
    ensures Keeps(s, r, t)
  {
  }

  /** A thread that neither gains nor loses a slot. */
  lemma NoSlot(s: State, r: State, i: nat, pc: Pc, t: string)
    requires r.quotas == s.quotas && r.kernel.queues == s.kernel.queues && r.kernel.minted == s.kernel.minted
    requires i < |s.threads| && r.threads == s.threads[i := pc] && Owes(pc) == Owes(s.threads[i])
    ensures Keeps(s, r, t)
  {
    forall p ensures OwedOn(r.threads, p) == OwedOn(s.threads, p) {
      OwedUpdate(s.threads, i, pc, p);
    }
    SlotsKept(s, r, t);
  }

  // ---------------------------------------------------------------------
  // Making a queue
  // ---------------------------------------------------------------------

  lemma NoTenant(minted: map<(Pid, Qid), string>, q: Qid)
    requires forall k | k in minted :: k.1 != q
    ensures QueueTenant(minted, q) == None
  {
  }

  lemma LoadsInserted(queues: map<Qid, seq<Item>>, threads: seq<Pc>, q: Qid, i: nat, pc: Pc)
    requires Placed(queues, threads) && q !in queues && i < |threads| && Owes(pc).None? && Owes(threads[i]).None?
    ensures Loads(queues[q := []], threads[i := pc]) == Loads(queues, threads)[q := 0]
  {
    OwedNone(threads, q);
    forall p ensures OwedOn(threads[i := pc], p) == OwedOn(threads, p) {
      OwedUpdate(threads, i, pc, p);
    }
  }

  lemma ShareInserted(loads: map<Qid, nat>, minted: map<(Pid, Qid), string>, q: Qid, t: string)
    requires forall k | k in minted :: k.1 != q
    requires q !in loads
    ensures Share(loads[q := 0], minted, t) == Share(loads, minted, t)
  {
    NoTenant(minted, q);
  }

  /** A new queue has no slot in use and no tenant. */
  lemma SlotsInserted(s: State, i: nat, act: Action, t: string)
    requires KernelOk(s) && Placed(s.kernel.queues, s.threads)
    requires i < |s.threads| && act.MakeQueue? && Ready(s, s.threads[i], act)
    ensures Keeps(s, Making(s, i, act), t)
  {
    LoadsInserted(s.kernel.queues, s.threads, act.queue, i, Inserted(act.queue, act.maker, act.tenant));
    ShareInserted(Loads(s.kernel.queues, s.threads), s.kernel.minted, act.queue, t);
  }

  /** A new queue's record does not disturb the tenants of the others. */
  lemma TenantStable(minted: map<(Pid, Qid), string>, k: (Pid, Qid), tenant: string, other: Qid)
    requires forall j | j in minted :: j.1 != k.1
    requires forall j, l | j in minted && l in minted && j.1 == l.1 :: j == l
    requires other != k.1
    ensures QueueTenant(minted[k := tenant], other) == QueueTenant(minted, other)
  {
    var m := minted[k := tenant];
    if j :| j in minted && j.1 == other {
      assert j in m && m[j] == minted[j];
    } else {
      forall l | l in m ensures l.1 != other {
        if l != k { assert l in minted; }
      }
    }
  }

  lemma TenantNew(minted: map<(Pid, Qid), string>, k: (Pid, Qid), tenant: string)
    requires forall j | j in minted :: j.1 != k.1
    ensures QueueTenant(minted[k := tenant], k.1) == Some(tenant)
  {
    assert k in minted[k := tenant];
  }

  /** The record adds just its queue to the share of its tenant. */
  lemma ShareGrows(loads: map<Qid, nat>, minted: map<(Pid, Qid), string>, k: (Pid, Qid), tenant: string, t: string)
    requires k.1 in loads
    requires forall j | j in minted :: j.1 != k.1
    requires forall j, l | j in minted && l in minted && j.1 == l.1 :: j == l
    ensures var m := Share(loads, minted, t);
            k.1 !in m && Share(loads, minted[k := tenant], t) == if tenant == t then m[k.1 := loads[k.1]] else m
  {
    forall q | q in loads && q != k.1 ensures QueueTenant(minted[k := tenant], q) == QueueTenant(minted, q) {
      TenantStable(minted, k, tenant, q);
    }
    NoTenant(minted, k.1);
    TenantNew(minted, k, tenant);
  }

  /** Recording the tenant puts the slots already in use by the queue on its account, uncharged. */
  lemma ShareRecorded(loads: map<Qid, nat>, minted: map<(Pid, Qid), string>, k: (Pid, Qid), tenant: string, t: string)
    requires k.1 in loads
    requires forall j | j in minted :: j.1 != k.1
    requires forall j, l | j in minted && l in minted && j.1 == l.1 :: j == l
    ensures Total(Share(loads, minted[k := tenant], t))
            == Total(Share(loads, minted, t)) + if tenant == t then loads[k.1] else 0
  {
    ShareGrows(loads, minted, k, tenant, t);
    if tenant == t {
      TotalInsert(Share(loads, minted, t), k.1, loads[k.1]);
    }
  }

  /** The record of `pc`'s queue comes while slots of it are in use, for tenant `t`. */
  predicate LateRecord(s: State, pc: Pc, t: string) {
    && pc.Published? && pc.tenant == t && pc.queue in s.kernel.queues
    && |s.kernel.queues[pc.queue]| + OwedOn(s.threads, pc.queue) > 0
  }

  lemma SlotsRecorded(s: State, i: nat, t: string)
    requires KernelOk(s) && MakersOk(s.kernel, s.threads) && i < |s.threads| && Ready(s, s.threads[i], Record)
    ensures var r := Making(s, i, Record);
            && (Balanced(s, t) ==> Balanced(r, t))
            && (Exact(s, t) ==> (Exact(r, t) <==> !LateRecord(s, s.threads[i], t)))
  {
    var r, pc := Making(s, i, Record), s.threads[i];
    assert MakerOk(s.kernel, pc);
    forall p ensures OwedOn(r.threads, p) == OwedOn(s.threads, p) {
      OwedUpdate(s.threads, i, Idle, p);
    }
    var loads := Loads(s.kernel.queues, s.threads);
    assert Loads(r.kernel.queues, r.threads) == loads;
    ShareRecorded(loads, s.kernel.minted, (pc.maker, pc.queue), pc.tenant, t);
  }

  // ---------------------------------------------------------------------
  // Every event
  // ---------------------------------------------------------------------

  /** The event takes the tenant's counter away from the slots in use. */
  predicate Unsettles(s: State, e: Event, t: string) {
    || (e.Step? && e.act.Record? && e.i < |s.threads| && LateRecord(s, s.threads[e.i], t))
    || (e == QuotaClear(t, HostQueue) && Usage(s, t) > 0)
  }

  lemma SlotsSetup(s: State, e: Event, t: string)
    requires Enabled(s, e) && !e.Step?
    ensures Balanced(s, t) ==> Balanced(Apply(s, e), t)
    ensures Exact(s, t) ==> (Exact(Apply(s, e), t) <==> !Unsettles(s, e, t))
  {
    if e.Attach? || e.Drop? {
      SlotsKept(s, Apply(s, e), t);
    }
  }

  lemma SlotsSending(s: State, i: nat, act: Action, t: string)
    requires t != "" && i < |s.threads| && Ready(s, s.threads[i], act) && (act.SendCharge? || act.SendPush?)
    ensures Keeps(s, Sending(s, i, act), t)
  {
    var r, pc := Sending(s, i, act), s.threads[i];
    if act.SendPush? {
      SlotMoves(s, r, i, Pushed(pc.queue), pc.queue, s.kernel.queues[pc.queue] + [pc.item], t);
    } else {
      var q := s.kernel.handles[act.handle];
      if CanCharge(s, q) {
        SlotCharged(s, r, i, Charged(q, act.item), q, t);
      }
    }
  }

  lemma SlotsWalking(s: State, i: nat, act: Action, t: string)
    requires t != "" && Placed(s.kernel.queues, s.threads) && i < |s.threads| && Ready(s, s.threads[i], act)
    requires act.PassStart? || act.PassVisit? || act.PassRelease? || act.PassEnd?
    ensures Keeps(s, Walking(s, i, act), t)
  {
    var r, pc := Walking(s, i, act), s.threads[i];
    if act.PassVisit? && WaitsOn(s, act.id, pc.queue) && s.kernel.queues[pc.queue] != [] {
      SlotMoves(s, r, i, PassOwes(pc.queue, pc.left - {act.id}), pc.queue, s.kernel.queues[pc.queue][1..], t);
    } else if act.PassRelease? {
      SlotReleased(s, r, i, Passing(pc.queue, pc.left), pc.queue, t);
    } else {
      NoSlot(s, r, i, r.threads[i], t);
    }
  }

  lemma SlotsTry(s: State, i: nat, l: Lid, t: string)
    requires i < |s.threads| && s.threads[i].Idle?
    ensures Keeps(s, Receiving(s, i, RecvTry(l)), t)
  {
    var r := Receiving(s, i, RecvTry(l));
    if Live(s, l) && s.kernel.queues[s.kernel.handles[l]] != [] {
      var q := s.kernel.handles[l];
      SlotMoves(s, r, i, RecvGot(s.past.calls, Head(s, q)), q, s.kernel.queues[q][1..], t);
    } else {
      NoSlot(s, r, i, r.threads[i], t);
    }
  }

  lemma SlotsReceiving(s: State, i: nat, act: Action, t: string)
    requires t != "" && Placed(s.kernel.queues, s.threads) && i < |s.threads| && Ready(s, s.threads[i], act)
    requires act.RecvRelease? || act.RecvInsert?
    ensures Keeps(s, Receiving(s, i, act), t)
  {
    var r, pc := Receiving(s, i, act), s.threads[i];
    if act.RecvRelease? {
      SlotReleased(s, r, i, RecvReady(pc.call, pc.done), pc.done.queue, t);
    } else {
      NoSlot(s, r, i, Idle, t);
    }
  }

  lemma SlotsPolling(s: State, i: nat, act: Action, t: string)
    requires t != "" && Placed(s.kernel.queues, s.threads)
    requires i < |s.threads| && Ready(s, s.threads[i], act) && (act.Poll? || act.PollRelease?)
    ensures Keeps(s, Polling(s, i, act), t)
  {
    var r, pc := Polling(s, i, act), s.threads[i];
    if act.PollRelease? {
      SlotReleased(s, r, i, Idle, pc.queue, t);
    } else {
      var op := s.ops[act.id];
      if op.state.Waiting? && Live(s, op.state.handle) && s.kernel.queues[s.kernel.handles[op.state.handle]] != [] {
        var q := s.kernel.handles[op.state.handle];
        SlotMoves(s, r, i, PollOwes(q), q, s.kernel.queues[q][1..], t);
      } else {
        SlotsKept(s, r, t);
      }
    }
  }

  lemma PlacedOne(queues: map<Qid, seq<Item>>, threads: seq<Pc>, after: map<Qid, seq<Item>>, i: nat, pc: Pc)
    requires Placed(queues, threads) && i < |threads| && forall q | q in queues :: q in after
    requires Owes(pc).Some? ==> Owes(pc).value in after
    ensures Placed(after, threads[i := pc])
  {
  }

  lemma PlacedTaking(s: State, i: nat, act: Action)
    requires Placed(s.kernel.queues, s.threads) && Enabled(s, Step(i, act))
    requires act.RecvTry? || act.RecvRelease? || act.RecvInsert? || act.Poll? || act.PollRelease?
    ensures var r := Apply(s, Step(i, act)); Placed(r.kernel.queues, r.threads)
  {
    var r := Apply(s, Step(i, act));
    PlacedOne(s.kernel.queues, s.threads, r.kernel.queues, i, r.threads[i]);
  }

  lemma PlacedGiving(s: State, i: nat, act: Action)
    requires Placed(s.kernel.queues, s.threads) && Enabled(s, Step(i, act))
    requires !(act.RecvTry? || act.RecvRelease? || act.RecvInsert? || act.Poll? || act.PollRelease?)
    ensures var r := Apply(s, Step(i, act)); Placed(r.kernel.queues, r.threads)
  {
    var r := Apply(s, Step(i, act));
    PlacedOne(s.kernel.queues, s.threads, r.kernel.queues, i, r.threads[i]);
  }

  lemma PlacedStep(s: State, e: Event)
    requires Placed(s.kernel.queues, s.threads) && Enabled(s, e)
    ensures Placed(Apply(s, e).kernel.queues, Apply(s, e).threads)
  {
    if e.Step? {
      if e.act.RecvTry? || e.act.RecvRelease? || e.act.RecvInsert? || e.act.Poll? || e.act.PollRelease? {
        PlacedTaking(s, e.i, e.act);
      } else {
        PlacedGiving(s, e.i, e.act);
      }
    }
  }

  /** One event: the bound is kept, and the equality exactly unless the event unsettles it. */
  lemma SlotsStep(s: State, e: Event, t: string)
    requires t != "" && KernelOk(s) && MakersOk(s.kernel, s.threads) && Placed(s.kernel.queues, s.threads)
    requires Enabled(s, e)
    ensures Balanced(s, t) ==> Balanced(Apply(s, e), t)
    ensures Exact(s, t) ==> (Exact(Apply(s, e), t) <==> !Unsettles(s, e, t))
  {
    if !e.Step? {
      SlotsSetup(s, e, t);
    } else if e.act.SendCharge? || e.act.SendPush? {
      SlotsSending(s, e.i, e.act, t);
    } else if e.act.RecvTry? {
      SlotsTry(s, e.i, e.act.handle, t);
    } else if e.act.RecvRelease? || e.act.RecvInsert? {
      SlotsReceiving(s, e.i, e.act, t);
    } else if e.act.Poll? || e.act.PollRelease? {
      SlotsPolling(s, e.i, e.act, t);
    } else if e.act.MakeQueue? {
      SlotsInserted(s, e.i, e.act, t);
    } else if e.act.Record? {
      SlotsRecorded(s, e.i, t);
    } else if e.act.Publish? {
      NoSlot(s, Apply(s, e), e.i, Apply(s, e).threads[e.i], t);
    } else {
      SlotsWalking(s, e.i, e.act, t);
    }
  }

  lemma SlotsBegin(n: nat, t: string)
    ensures Placed(Init(n).kernel.queues, Init(n).threads) && Exact(Init(n), t)
  {
    assert Share(Loads(map[], Init(n).threads), map[], t) == map[];
  }

  lemma {:induction false} PlacedAlways(n: nat, es: seq<Event>)
    requires IsRun(n, es)
    ensures Placed(After(n, es).kernel.queues, After(n, es).threads)
  {
    if es != [] {
      PlacedAlways(n, es[..|es| - 1]);
      PlacedStep(After(n, es[..|es| - 1]), es[|es| - 1]);
    }
  }

  lemma {:induction false} BalancedAlways(n: nat, es: seq<Event>, t: string)
    requires IsRun(n, es) && t != ""
    ensures Balanced(After(n, es), t)
  {
    if es == [] {
      SlotsBegin(n, t);
    } else {
      var pre := es[..|es| - 1];
      BalancedAlways(n, pre, t);
      KernelAlways(n, pre);
      PlacedAlways(n, pre);
      SlotsStep(After(n, pre), es[|es| - 1], t);
    }
  }

  /** No thread holds a slot mid-call. */
  predicate Quiet(threads: seq<Pc>) {
    forall i | 0 <= i < |threads| :: Owes(threads[i]).None?
  }

  /** The undelivered items in the tenant's queues. */
  ghost function Undelivered(s: State, t: string): nat {
    Total(Share(Lengths(s.kernel.queues), s.kernel.minted, t))
  }

  /**
   In every run, a tenant is charged for no more than the slots in use by its
   queues, queued or held mid-call; with no call in flight the slots in use are
   the undelivered items.
   */
  lemma SlotsConserved(n: nat, es: seq<Event>, t: string)
    requires IsRun(n, es) && t != ""
    ensures Usage(After(n, es), t) <= InUse(After(n, es), t)
    ensures Quiet(After(n, es).threads) ==> InUse(After(n, es), t) == Undelivered(After(n, es), t)
  {
    BalancedAlways(n, es, t);
    var s := After(n, es);
    if Quiet(s.threads) {
      NoneHeld(s.kernel.queues, s.threads);
    }
  }

  lemma NoneHeld(queues: map<Qid, seq<Item>>, threads: seq<Pc>)
    requires Quiet(threads)
    ensures Loads(queues, threads) == Lengths(queues)
  {
    forall q ensures OwedOn(threads, q) == 0 {
      OwedNone(threads, q);
    }
  }

  /** The tenant's counter equals its slots in use after every event of the run. */
  ghost predicate ExactThroughout(n: nat, es: seq<Event>, t: string) {
    Exact(After(n, es), t) && (es == [] || ExactThroughout(n, es[..|es| - 1], t))
  }

  /** No event of the run unsettles the tenant's counter. */
  ghost predicate NeverUnsettled(n: nat, es: seq<Event>, t: string) {
    es == []
    || (NeverUnsettled(n, es[..|es| - 1], t) && !Unsettles(After(n, es[..|es| - 1]), es[|es| - 1], t))
  }

  /**
   Exactly when the accounts are right: a tenant's counter equals its slots in
   use throughout a run if and only if no tenant record of a queue came while
   slots of the queue were in use, and no clear dropped a positive count.
   */
  lemma {:induction false} SlotsExactly(n: nat, es: seq<Event>, t: string)
    requires IsRun(n, es) && t != ""
    ensures ExactThroughout(n, es, t) <==> NeverUnsettled(n, es, t)
  {
    if es == [] {
      SlotsBegin(n, t);
    } else {
      var pre := es[..|es| - 1];
      SlotsExactly(n, pre, t);
      KernelAlways(n, pre);
      PlacedAlways(n, pre);
      SlotsStep(After(n, pre), es[|es| - 1], t);
    }
  }
}
