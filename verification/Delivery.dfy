/**
 Host queues and waiting receives under interleaving.

 Host threads run hostcalls concurrently. A send reserves a pipe slot, pushes,
 then walks the operation table under its lock. A receive pops at dispatch, or
 inserts a waiting operation that a wake pass or a poll completes later. Making a
 queue inserts it, publishes it and only then records its tenant. Each event is
 one lock section; a pop and the release of its pipe slot are separate.
 */
module Delivery {
  import opened Common
  import opened Quota

  type Pid = nat
  type Qid = nat
  type Lid = nat
  type OpId = nat

  /** A queue entry: sender, value and opaque metadata. */
  datatype Item = Item(sender: Pid, value: nat, metadata: seq<nat>)

  /**
   A receive operation. `call` numbers the receive hostcalls (history), `polled`
   says that `poll_hostcall` saw it waiting (history), and `queue` and `index`
   say which sent item it got (history). A receive fails on a handle it does not
   know, or when a poll finds its deadline passed.
   */
  datatype OpState =
    | Waiting(handle: Lid, polled: bool)
    | Done(item: Item, queue: Qid, index: nat)
    | Failed(timedOut: bool)

  datatype Op = Op(call: nat, state: OpState)

  datatype Pc =
    | Idle
    | Charged(queue: Qid, item: Item)               // slot reserved, not pushed
    | Pushed(queue: Qid)                            // pushed, wake pass to come
    | Passing(queue: Qid, left: set<OpId>)          // in the wake pass
    | PassOwes(queue: Qid, left: set<OpId>)         // delivered, slot not released
    | RecvGot(call: nat, done: OpState)             // popped at dispatch, slot not released
    | RecvReady(call: nat, done: OpState)           // about to insert a ready operation
    | RecvEmpty(handle: Lid, call: nat)             // about to insert a waiting operation
    | PollOwes(queue: Qid)                          // popped by a poll, slot not released
    | Inserted(queue: Qid, maker: Pid, tenant: string)   // queue made, not published
    | Published(queue: Qid, maker: Pid, tenant: string)  // published, tenant not recorded

  /** The kernel registry and the tenants its queues were minted for. */
  datatype Kernel = Kernel(queues: map<Qid, seq<Item>>, handles: map<Lid, Qid>, minted: map<(Pid, Qid), string>)

  /** A pop: the item and the number of the receive call that took it. */
  datatype Pop = Pop(call: nat, item: Item)

  /** History: every item pushed to a queue in order, and every pop from it in order. */
  datatype Past = Past(sent: map<Qid, seq<Item>>, takers: map<Qid, seq<Pop>>, calls: nat)

  datatype State = State(kernel: Kernel, quotas: Quotas, ops: map<OpId, Op>, locked: bool,
                         threads: seq<Pc>, past: Past)

  datatype Action =
    | MakeQueue(maker: Pid, queue: Qid, handle: Lid, tenant: string)
    | Publish(ok: bool)
    | Record
    | SendCharge(handle: Lid, item: Item)
    | SendPush
    | PassStart
    | PassVisit(id: OpId)
    | PassRelease
    | PassEnd
    | RecvTry(handle: Lid)
    | RecvRelease
    | RecvInsert(id: OpId)
    | Poll(id: OpId, expired: bool)
    | PollRelease

  datatype Event =
    | Attach(q: Qid, l: Lid)
    | Drop(id: OpId)
    | QuotaSet(name: string, class_: ResourceClass, limit: U64)
    | QuotaClear(name: string, class_: ResourceClass)
    | Step(i: nat, act: Action)

  function Init(n: nat): State {
    State(Kernel(map[], map[], map[]), map[], map[], false, seq(n, _ => Idle), Past(map[], map[], 0))
  }

  // ---------------------------------------------------------------------
  // Pipe slots
  // ---------------------------------------------------------------------

  /** `queue_owner_tenant`: the tenant of any record for the queue. */
  ghost function QueueTenant(minted: map<(Pid, Qid), string>, q: Qid): Option<string> {
    if exists k :: k in minted && k.1 == q then
      var k :| k in minted && k.1 == q;
      Some(minted[k])
    else None
  }

  /** `charge_queue_item` succeeds. */
  ghost predicate CanCharge(s: State, q: Qid) {
    var t := QueueTenant(s.kernel.minted, q);
    t.Some? ==> Admits(s.quotas, t.value, HostQueue, 1)
  }

  ghost function Charge(s: State, q: Qid): Quotas {
    var t := QueueTenant(s.kernel.minted, q);
    if t.Some? then Consume(s.quotas, t.value, HostQueue, 1) else s.quotas
  }

  /** `release_queue_item`. */
  ghost function Uncharge(s: State, q: Qid): Quotas {
    var t := QueueTenant(s.kernel.minted, q);
    if t.Some? then Release(s.quotas, t.value, HostQueue, 1) else s.quotas
  }

  // ---------------------------------------------------------------------
  // The transition relation
  // ---------------------------------------------------------------------

  predicate Live(s: State, l: Lid) {
    && l in s.kernel.handles
    && var q := s.kernel.handles[l]; q in s.kernel.queues && q in s.past.sent && q in s.past.takers
  }

  /** The completion an operation gets from the next item of the queue. */
  function Head(s: State, q: Qid): OpState
    requires q in s.kernel.queues && q in s.past.takers && s.kernel.queues[q] != []
  {
    Done(s.kernel.queues[q][0], q, |s.past.takers[q]|)
  }

  /** The next item of the queue goes to receive call `call`. */
  function Take(s: State, q: Qid, call: nat): State
    requires q in s.kernel.queues && q in s.past.takers && s.kernel.queues[q] != []
  {
    s.(kernel := s.kernel.(queues := s.kernel.queues[q := s.kernel.queues[q][1..]]),
       past := s.past.(takers := s.past.takers[q := s.past.takers[q] + [Pop(call, s.kernel.queues[q][0])]]))
  }

  function At(s: State, i: nat, pc: Pc): State
    requires i < |s.threads|
  {
    s.(threads := s.threads[i := pc])
  }

  predicate WaitsOn(s: State, id: OpId, q: Qid) {
    id in s.ops && s.ops[id].state.Waiting? && Live(s, s.ops[id].state.handle)
    && s.kernel.handles[s.ops[id].state.handle] == q
  }

  ghost predicate Enabled(s: State, e: Event) {
    match e
    case Attach(q, l) => q in s.kernel.queues && l !in s.kernel.handles
    case Drop(_) => !s.locked
    case QuotaSet(_, _, _) => true
    case QuotaClear(_, _) => true
    case Step(i, act) => i < |s.threads| && Ready(s, s.threads[i], act)
  }

  ghost predicate Ready(s: State, pc: Pc, act: Action) {
    match act
    case MakeQueue(_, q, l, _) => pc.Idle? && q !in s.kernel.queues && l !in s.kernel.handles
    case Publish(_) => pc.Inserted?
    case Record => pc.Published?
    case SendCharge(l, _) => pc.Idle? && Live(s, l)
    case SendPush => pc.Charged? && pc.queue in s.kernel.queues && pc.queue in s.past.sent
    case PassStart => pc.Pushed? && !s.locked
    case PassVisit(id) => pc.Passing? && id in pc.left
    case PassRelease => pc.PassOwes?
    case PassEnd => pc.Passing? && pc.left == {}
    case RecvTry(_) => pc.Idle?
    case RecvRelease => pc.RecvGot? && pc.done.Done?
    case RecvInsert(id) => (pc.RecvReady? || pc.RecvEmpty?) && id !in s.ops && id != 0 && !s.locked
    case Poll(id, _) => pc.Idle? && id in s.ops && !s.locked
    case PollRelease => pc.PollOwes?
  }

  ghost function Apply(s: State, e: Event): State
    requires Enabled(s, e)
  {
    match e
    case Attach(q, l) => s.(kernel := s.kernel.(handles := s.kernel.handles[l := q]))
    case Drop(id) => s.(ops := s.ops - {id})
    case QuotaSet(name, class_, limit) => s.(quotas := Author(s.quotas, name, class_, limit))
    case QuotaClear(name, class_) =>
      s.(quotas := s.quotas - {(name, class_)})
    case Step(i, act) =>
      if act.SendCharge? || act.SendPush? then Sending(s, i, act)
      else if act.RecvTry? || act.RecvRelease? || act.RecvInsert? then Receiving(s, i, act)
      else if act.Poll? || act.PollRelease? then Polling(s, i, act)
      else if act.MakeQueue? || act.Publish? || act.Record? then Making(s, i, act)
      else Walking(s, i, act)
  }

  /** `HostQueueCreate`. The queue can be attached and used before its tenant is recorded. */
  ghost function Making(s: State, i: nat, act: Action): State
    requires i < |s.threads| && Ready(s, s.threads[i], act) && (act.MakeQueue? || act.Publish? || act.Record?)
  {
    var pc := s.threads[i];
    match act
    case MakeQueue(p, q, l, tenant) =>
      At(s, i, Inserted(q, p, tenant)).(
        kernel := s.kernel.(queues := s.kernel.queues[q := []], handles := s.kernel.handles[l := q]),
        past := s.past.(sent := s.past.sent[q := []], takers := s.past.takers[q := []]))
    case Publish(ok) => At(s, i, if ok then Published(pc.queue, pc.maker, pc.tenant) else Idle)
    case Record =>
      At(s, i, Idle).(
        kernel := s.kernel.(minted := s.kernel.minted[(pc.maker, pc.queue) := pc.tenant]))
  }

  /** `HostQueueSend` up to the wake pass. */
  ghost function Sending(s: State, i: nat, act: Action): State
    requires i < |s.threads| && Ready(s, s.threads[i], act) && (act.SendCharge? || act.SendPush?)
  {
    var pc := s.threads[i];
    match act
    case SendCharge(l, item) =>
      var q := s.kernel.handles[l];
      if CanCharge(s, q) then At(s.(quotas := Charge(s, q)), i, Charged(q, item)) else s
    case SendPush =>
      var q := pc.queue;
      At(s, i, Pushed(q)).(
        kernel := s.kernel.(queues := s.kernel.queues[q := s.kernel.queues[q] + [pc.item]]),
        past := s.past.(sent := s.past.sent[q := s.past.sent[q] + [pc.item]]))
  }

  /** `wake_host_queue_waiters`, one operation per step. */
  ghost function Walking(s: State, i: nat, act: Action): State
    requires i < |s.threads| && Ready(s, s.threads[i], act)
    requires act.PassStart? || act.PassVisit? || act.PassRelease? || act.PassEnd?
  {
    var pc := s.threads[i];
    match act
    case PassStart => At(s, i, Passing(pc.queue, s.ops.Keys)).(locked := true)
    case PassVisit(id) =>
      if WaitsOn(s, id, pc.queue) && s.kernel.queues[pc.queue] != [] then
        At(Take(s, pc.queue, s.ops[id].call), i, PassOwes(pc.queue, pc.left - {id})).(
          ops := s.ops[id := s.ops[id].(state := Head(s, pc.queue))])
      else At(s, i, Passing(pc.queue, pc.left - {id}))
    case PassRelease => At(s.(quotas := Uncharge(s, pc.queue)), i, Passing(pc.queue, pc.left))
    case PassEnd => At(s, i, Idle).(locked := false)
  }

  /** `HostQueueRecv` and the insertion of its operation. */
  ghost function Receiving(s: State, i: nat, act: Action): State
    requires i < |s.threads| && Ready(s, s.threads[i], act)
    requires act.RecvTry? || act.RecvRelease? || act.RecvInsert?
  {
    var pc := s.threads[i];
    match act
    case RecvTry(l) =>
      var call := s.past.calls;
      var s1 := s.(past := s.past.(calls := call + 1));
      if !Live(s, l) then At(s1, i, RecvReady(call, Failed(false)))
      else if s.kernel.queues[s.kernel.handles[l]] == [] then At(s1, i, RecvEmpty(l, call))
      else At(Take(s1, s.kernel.handles[l], call), i, RecvGot(call, Head(s, s.kernel.handles[l])))
    case RecvRelease =>
      At(s.(quotas := Uncharge(s, pc.done.queue)), i, RecvReady(pc.call, pc.done))
    case RecvInsert(id) =>
      var state := if pc.RecvEmpty? then Waiting(pc.handle, false) else pc.done;
      At(s, i, Idle).(ops := s.ops[id := Op(pc.call, state)])
  }

  /** `poll_hostcall` of a receive; `expired` says its deadline has passed. */
  ghost function Polling(s: State, i: nat, act: Action): State
    requires i < |s.threads| && Ready(s, s.threads[i], act) && (act.Poll? || act.PollRelease?)
  {
    var pc := s.threads[i];
    match act
    case Poll(id, expired) =>
      var op := s.ops[id];
      if !op.state.Waiting? || !Live(s, op.state.handle) then s
      else
        var q := s.kernel.handles[op.state.handle];
        if s.kernel.queues[q] != [] then
          At(Take(s, q, op.call), i, PollOwes(q)).(ops := s.ops[id := op.(state := Head(s, q))])
        else if expired then s.(ops := s.ops[id := op.(state := Failed(true))])
        else s.(ops := s.ops[id := op.(state := op.state.(polled := true))])
    case PollRelease => At(s.(quotas := Uncharge(s, pc.queue)), i, Idle)
  }

  // ---------------------------------------------------------------------
  // Runs
  // ---------------------------------------------------------------------

  ghost predicate IsRun(n: nat, es: seq<Event>) {
    es == []
    || (IsRun(n, es[..|es| - 1]) && Enabled(After(n, es[..|es| - 1]), es[|es| - 1]))
  }

  ghost function After(n: nat, es: seq<Event>): State {
    if es == [] then Init(n)
    else
      var s := After(n, es[..|es| - 1]);
      if Enabled(s, es[|es| - 1]) then Apply(s, es[|es| - 1]) else s
  }

  lemma RunMore(n: nat, es: seq<Event>, s: State, e: Event)
    requires IsRun(n, es) && After(n, es) == s && Enabled(s, e)
    ensures IsRun(n, es + [e]) && After(n, es + [e]) == Apply(s, e)
  {
    assert (es + [e])[..|es + [e]| - 1] == es;
  }
}
