/** Item conservation and the single receiver of every item, for every run. */
module DeliveryItems {
  import opened Common
  import opened Delivery

  // ---------------------------------------------------------------------
  // The kernel queues
  // ---------------------------------------------------------------------

  /** The items popped, in the order of the pops. */
  function Popped(pops: seq<Pop>): (items: seq<Item>)
    ensures |items| == |pops|
  {
    seq(|pops|, i requires 0 <= i < |pops| => pops[i].item)
  }

  /** What was popped is what was sent first, and the rest is queued. */
  predicate QueueOk(s: State, q: Qid) {
    && q in s.past.sent && q in s.past.takers && q in s.kernel.queues
    && |s.past.takers[q]| <= |s.past.sent[q]|
    && Popped(s.past.takers[q]) == s.past.sent[q][..|s.past.takers[q]|]
    && s.kernel.queues[q] == s.past.sent[q][|s.past.takers[q]|..]
  }

  ghost predicate KernelOk(s: State) {
    && s.past.sent.Keys == s.kernel.queues.Keys && s.past.takers.Keys == s.kernel.queues.Keys
    && (forall q | q in s.kernel.queues :: QueueOk(s, q))
    && (forall l | l in s.kernel.handles :: s.kernel.handles[l] in s.kernel.queues)
    && (forall k | k in s.kernel.minted :: k.1 in s.kernel.queues)
    && (forall k, j | k in s.kernel.minted && j in s.kernel.minted && k.1 == j.1 :: k == j)
  }

  /** A pop moves the first queued item to the popped ones. */
  lemma PopMoves(sent: seq<Item>, pops: seq<Pop>, queue: seq<Item>, call: nat)
    requires |pops| <= |sent| && Popped(pops) == sent[..|pops|] && queue == sent[|pops|..] && queue != []
    ensures var more := pops + [Pop(call, queue[0])];
            |pops| < |sent| && queue[0] == sent[|pops|]
            && Popped(more) == sent[..|more|] && queue[1..] == sent[|more|..]
  {
    var more := pops + [Pop(call, queue[0])];
    assert Popped(more) == Popped(pops) + [queue[0]];
    assert sent[..|more|] == sent[..|pops|] + [sent[|pops|]];
  }

  lemma KernelTake(s: State, q: Qid, call: nat)
    requires KernelOk(s) && q in s.kernel.queues && s.kernel.queues[q] != []
    ensures KernelOk(Take(s, q, call))
    ensures |s.past.takers[q]| < |s.past.sent[q]|
    ensures s.kernel.queues[q][0] == s.past.sent[q][|s.past.takers[q]|]
  {
    assert QueueOk(s, q);
    PopMoves(s.past.sent[q], s.past.takers[q], s.kernel.queues[q], call);
    var r := Take(s, q, call);
    forall p | p in r.kernel.queues ensures QueueOk(r, p) {
      assert QueueOk(s, p);
    }
  }

  lemma KernelPush(s: State, q: Qid, item: Item)
    requires KernelOk(s) && q in s.kernel.queues
    ensures KernelOk(s.(kernel := s.kernel.(queues := s.kernel.queues[q := s.kernel.queues[q] + [item]]),
                        past := s.past.(sent := s.past.sent[q := s.past.sent[q] + [item]])))
  {
    var r := s.(kernel := s.kernel.(queues := s.kernel.queues[q := s.kernel.queues[q] + [item]]),
                past := s.past.(sent := s.past.sent[q := s.past.sent[q] + [item]]));
    forall p | p in r.kernel.queues ensures QueueOk(r, p) {
      assert QueueOk(s, p);
      if p == q {
        var n, sent := |s.past.takers[q]|, s.past.sent[q];
        assert (sent + [item])[..n] == sent[..n] && (sent + [item])[n..] == sent[n..] + [item];
      }
    }
  }

  lemma KernelFrame(s: State, r: State)
    requires KernelOk(s) && r.kernel == s.kernel && r.past.sent == s.past.sent && r.past.takers == s.past.takers
    ensures KernelOk(r)
  {
    forall p | p in r.kernel.queues ensures QueueOk(r, p) {
      assert QueueOk(s, p);
    }
  }

  /** A record for a new queue keeps the records one per queue. */
  lemma MintedOnce(minted: map<(Pid, Qid), string>, k: (Pid, Qid), tenant: string)
    requires forall j | j in minted :: j.1 != k.1
    requires forall i, j | i in minted && j in minted && i.1 == j.1 :: i == j
    ensures var m := minted[k := tenant]; forall i, j | i in m && j in m && i.1 == j.1 :: i == j
  {
  }

  lemma KernelAttach(s: State, e: Event)
    requires KernelOk(s) && Enabled(s, e) && e.Attach?
    ensures KernelOk(Apply(s, e))
  {
    var r := Apply(s, e);
    forall p | p in r.kernel.queues ensures QueueOk(r, p) {
      assert QueueOk(s, p);
    }
  }

  lemma KernelSetup(s: State, e: Event)
    requires KernelOk(s) && Enabled(s, e) && !e.Step?
    ensures KernelOk(Apply(s, e))
  {
    if e.Attach? {
      KernelAttach(s, e);
    } else {
      KernelFrame(s, Apply(s, e));
    }
  }

  /** A thread that has made a queue and has still to record its tenant. */
  predicate Makes(pc: Pc) {
    pc.Inserted? || pc.Published?
  }

  predicate Unrecorded(kernel: Kernel, q: Qid) {
    forall k | k in kernel.minted :: k.1 != q
  }

  predicate MakerOk(kernel: Kernel, pc: Pc) {
    Makes(pc) ==> pc.queue in kernel.queues && Unrecorded(kernel, pc.queue)
  }

  /** A queue still being made exists, has no record, and has one maker. */
  predicate MakersOk(kernel: Kernel, threads: seq<Pc>) {
    && (forall i | 0 <= i < |threads| :: MakerOk(kernel, threads[i]))
    && (forall i, j | 0 <= i < j < |threads| && Makes(threads[i]) && Makes(threads[j]) ::
          threads[i].queue != threads[j].queue)
  }

  /** Thread `i` moves on without starting to make a queue, and nothing is recorded. */
  lemma MakersStay(kernel: Kernel, threads: seq<Pc>, after: Kernel, i: nat, pc: Pc)
    requires MakersOk(kernel, threads) && after.minted == kernel.minted && i < |threads|
    requires forall q | q in kernel.queues :: q in after.queues
    requires Makes(pc) ==> Makes(threads[i]) && pc.queue == threads[i].queue
    ensures MakersOk(after, threads[i := pc])
  {
    var r := threads[i := pc];
    forall j | 0 <= j < |r| ensures MakerOk(after, r[j]) {
      assert MakerOk(kernel, threads[j]);
    }
  }

  lemma MakersInsert(kernel: Kernel, threads: seq<Pc>, after: Kernel, i: nat, pc: Pc)
    requires MakersOk(kernel, threads) && after.minted == kernel.minted && i < |threads| && !Makes(threads[i])
    requires forall q | q in kernel.queues :: q in after.queues
    requires Makes(pc) && pc.queue !in kernel.queues && pc.queue in after.queues && Unrecorded(kernel, pc.queue)
    ensures MakersOk(after, threads[i := pc])
  {
    var r := threads[i := pc];
    forall j | 0 <= j < |r| ensures MakerOk(after, r[j]) {
      assert MakerOk(kernel, threads[j]);
    }
  }

  lemma MakersRecord(kernel: Kernel, threads: seq<Pc>, i: nat, tenant: string)
    requires MakersOk(kernel, threads) && i < |threads| && Makes(threads[i])
    ensures var pc := threads[i];
            MakersOk(kernel.(minted := kernel.minted[(pc.maker, pc.queue) := tenant]), threads[i := Idle])
  {
    var pc, r := threads[i], threads[i := Idle];
    var after := kernel.(minted := kernel.minted[(pc.maker, pc.queue) := tenant]);
    forall j | 0 <= j < |r| && Makes(r[j]) ensures MakerOk(after, r[j]) {
      assert MakerOk(kernel, threads[j]) && threads[j].queue != pc.queue;
    }
  }

  lemma KernelMaking(s: State, i: nat, act: Action)
    requires KernelOk(s) && MakersOk(s.kernel, s.threads) && i < |s.threads| && Ready(s, s.threads[i], act)
    requires act.MakeQueue? || act.Publish? || act.Record?
    ensures KernelOk(Making(s, i, act))
  {
    var r, pc := Making(s, i, act), s.threads[i];
    match act
    case MakeQueue(_, q, _, _) =>
      forall p | p in r.kernel.queues ensures QueueOk(r, p) {
        if p != q { assert QueueOk(s, p); }
      }
    case Publish(_) => KernelFrame(s, r);
    case Record =>
      assert MakerOk(s.kernel, pc);
      MintedOnce(s.kernel.minted, (pc.maker, pc.queue), pc.tenant);
      forall p | p in r.kernel.queues ensures QueueOk(r, p) {
        assert QueueOk(s, p);
      }
  }

  lemma MakersMaking(s: State, i: nat, act: Action)
    requires KernelOk(s) && MakersOk(s.kernel, s.threads) && i < |s.threads| && Ready(s, s.threads[i], act)
    requires act.MakeQueue? || act.Publish? || act.Record?
    ensures var r := Making(s, i, act); MakersOk(r.kernel, r.threads)
  {
    var r, pc := Making(s, i, act), s.threads[i];
    match act
    case MakeQueue(_, _, _, _) => MakersInsert(s.kernel, s.threads, r.kernel, i, r.threads[i]);
    case Publish(_) => MakersStay(s.kernel, s.threads, r.kernel, i, r.threads[i]);
    case Record => MakersRecord(s.kernel, s.threads, i, pc.tenant);
  }

  /** A step that neither makes nor records a queue. */
  lemma MakersQuiet(s: State, r: State, i: nat)
    requires MakersOk(s.kernel, s.threads) && i < |s.threads| && |r.threads| == |s.threads|
    requires r.threads == s.threads[i := r.threads[i]] && !Makes(r.threads[i])
    requires r.kernel.minted == s.kernel.minted && r.kernel.queues.Keys == s.kernel.queues.Keys
    ensures MakersOk(r.kernel, r.threads)
  {
    MakersStay(s.kernel, s.threads, r.kernel, i, r.threads[i]);
  }

  lemma MakersSending(s: State, i: nat, act: Action)
    requires MakersOk(s.kernel, s.threads) && i < |s.threads| && Ready(s, s.threads[i], act)
    requires act.SendCharge? || act.SendPush?
    ensures var r := Sending(s, i, act); MakersOk(r.kernel, r.threads)
  {
    MakersQuiet(s, Sending(s, i, act), i);
  }

  lemma MakersWalking(s: State, i: nat, act: Action)
    requires MakersOk(s.kernel, s.threads) && i < |s.threads| && Ready(s, s.threads[i], act)
    requires act.PassStart? || act.PassVisit? || act.PassRelease? || act.PassEnd?
    ensures var r := Walking(s, i, act); MakersOk(r.kernel, r.threads)
  {
    MakersQuiet(s, Walking(s, i, act), i);
  }

  lemma MakersReceiving(s: State, i: nat, act: Action)
    requires MakersOk(s.kernel, s.threads) && i < |s.threads| && Ready(s, s.threads[i], act)
    requires act.RecvTry? || act.RecvRelease? || act.RecvInsert?
    ensures var r := Receiving(s, i, act); MakersOk(r.kernel, r.threads)
  {
    MakersQuiet(s, Receiving(s, i, act), i);
  }

  lemma MakersPolling(s: State, i: nat, act: Action)
    requires MakersOk(s.kernel, s.threads) && i < |s.threads| && Ready(s, s.threads[i], act)
    requires act.Poll? || act.PollRelease?
    ensures var r := Polling(s, i, act); MakersOk(r.kernel, r.threads)
  {
    MakersQuiet(s, Polling(s, i, act), i);
  }

  /** Steps outside `HostQueueCreate` neither make nor record queues. */
  lemma MakersOther(s: State, i: nat, act: Action)
    requires MakersOk(s.kernel, s.threads) && Enabled(s, Step(i, act))
    requires !act.MakeQueue? && !act.Publish? && !act.Record?
    ensures var r := Apply(s, Step(i, act)); MakersOk(r.kernel, r.threads)
  {
    if act.SendCharge? || act.SendPush? {
      MakersSending(s, i, act);
    } else if act.RecvTry? || act.RecvRelease? || act.RecvInsert? {
      MakersReceiving(s, i, act);
    } else if act.Poll? || act.PollRelease? {
      MakersPolling(s, i, act);
    } else {
      MakersWalking(s, i, act);
    }
  }

  lemma MakersStep(s: State, e: Event)
    requires KernelOk(s) && MakersOk(s.kernel, s.threads) && Enabled(s, e)
    ensures var r := Apply(s, e); MakersOk(r.kernel, r.threads)
  {
    if !e.Step? {
      assert forall i | 0 <= i < |s.threads| ::
          MakerOk(s.kernel, s.threads[i]) ==> MakerOk(Apply(s, e).kernel, s.threads[i]);
    } else if e.act.MakeQueue? || e.act.Publish? || e.act.Record? {
      MakersMaking(s, e.i, e.act);
    } else {
      MakersOther(s, e.i, e.act);
    }
  }

  lemma KernelSending(s: State, i: nat, act: Action)
    requires KernelOk(s) && i < |s.threads| && Ready(s, s.threads[i], act) && (act.SendCharge? || act.SendPush?)
    ensures KernelOk(Sending(s, i, act))
  {
    var r, pc := Sending(s, i, act), s.threads[i];
    if act.SendPush? {
      KernelPush(s, pc.queue, pc.item);
      KernelFrame(s.(kernel := r.kernel, past := r.past), r);
    } else {
      KernelFrame(s, r);
    }
  }

  lemma KernelWalking(s: State, i: nat, act: Action)
    requires KernelOk(s) && i < |s.threads| && Ready(s, s.threads[i], act)
    requires act.PassStart? || act.PassVisit? || act.PassRelease? || act.PassEnd?
    ensures KernelOk(Walking(s, i, act))
  {
    var r, pc := Walking(s, i, act), s.threads[i];
    if act.PassVisit? && WaitsOn(s, act.id, pc.queue) && s.kernel.queues[pc.queue] != [] {
      KernelTake(s, pc.queue, s.ops[act.id].call);
      KernelFrame(Take(s, pc.queue, s.ops[act.id].call), r);
    } else {
      KernelFrame(s, r);
    }
  }

  lemma KernelReceiving(s: State, i: nat, act: Action)
    requires KernelOk(s) && i < |s.threads| && Ready(s, s.threads[i], act)
    requires act.RecvTry? || act.RecvRelease? || act.RecvInsert?
    ensures KernelOk(Receiving(s, i, act))
  {
    var r := Receiving(s, i, act);
    if act.RecvTry? && Live(s, act.handle) && s.kernel.queues[s.kernel.handles[act.handle]] != [] {
      KernelTake(s, s.kernel.handles[act.handle], s.past.calls);
      KernelFrame(Take(s, s.kernel.handles[act.handle], s.past.calls), r);
    } else {
      KernelFrame(s, r);
    }
  }

  lemma KernelPolling(s: State, i: nat, act: Action)
    requires KernelOk(s) && i < |s.threads| && Ready(s, s.threads[i], act) && (act.Poll? || act.PollRelease?)
    ensures KernelOk(Polling(s, i, act))
  {
    var r := Polling(s, i, act);
    if act.Poll? && s.ops[act.id].state.Waiting? && Live(s, s.ops[act.id].state.handle) {
      var q := s.kernel.handles[s.ops[act.id].state.handle];
      if s.kernel.queues[q] != [] {
        KernelTake(s, q, s.ops[act.id].call);
        KernelFrame(Take(s, q, s.ops[act.id].call), r);
      } else {
        KernelFrame(s, r);
      }
    } else {
      KernelFrame(s, r);
    }
  }

  lemma KernelStep(s: State, e: Event)
    requires KernelOk(s) && MakersOk(s.kernel, s.threads) && Enabled(s, e)
    ensures KernelOk(Apply(s, e))
  {
    if !e.Step? {
      KernelSetup(s, e);
    } else if e.act.SendCharge? || e.act.SendPush? {
      KernelSending(s, e.i, e.act);
    } else if e.act.RecvTry? || e.act.RecvRelease? || e.act.RecvInsert? {
      KernelReceiving(s, e.i, e.act);
    } else if e.act.Poll? || e.act.PollRelease? {
      KernelPolling(s, e.i, e.act);
    } else if e.act.MakeQueue? || e.act.Publish? || e.act.Record? {
      KernelMaking(s, e.i, e.act);
    } else {
      KernelWalking(s, e.i, e.act);
    }
  }

  lemma {:induction false} KernelAlways(n: nat, es: seq<Event>)
    requires IsRun(n, es)
    ensures KernelOk(After(n, es)) && MakersOk(After(n, es).kernel, After(n, es).threads)
  {
    if es != [] {
      KernelAlways(n, es[..|es| - 1]);
      KernelStep(After(n, es[..|es| - 1]), es[|es| - 1]);
      MakersStep(After(n, es[..|es| - 1]), es[|es| - 1]);
    }
  }

  /**
   Across all three delivery paths, the items popped from a queue in order,
   followed by the items still queued, are the items sent to it.
   */
  lemma ItemsConserved(n: nat, es: seq<Event>, q: Qid)
    requires IsRun(n, es) && q in After(n, es).kernel.queues
    ensures var s := After(n, es);
            && q in s.past.sent && q in s.past.takers
            && Popped(s.past.takers[q]) + s.kernel.queues[q] == s.past.sent[q]
  {
    KernelAlways(n, es);
    QueueSplit(After(n, es), q);
  }

  lemma QueueSplit(s: State, q: Qid)
    requires KernelOk(s) && q in s.kernel.queues
    ensures QueueOk(s, q) && Popped(s.past.takers[q]) + s.kernel.queues[q] == s.past.sent[q]
  {
    assert QueueOk(s, q);
  }

  // ---------------------------------------------------------------------
  // Receive calls
  // ---------------------------------------------------------------------

  /** Who carries a receive call: its operation, or the thread still running it. */
  datatype Bearer = InOp(id: OpId) | InThread(i: nat)

  predicate Bears(s: State, b: Bearer) {
    match b
    case InOp(id) => id in s.ops
    case InThread(i) =>
      i < |s.threads| && (s.threads[i].RecvGot? || s.threads[i].RecvReady? || s.threads[i].RecvEmpty?)
  }

  function CallOf(s: State, b: Bearer): nat
    requires Bears(s, b)
  {
    match b
    case InOp(id) => s.ops[id].call
    case InThread(i) => s.threads[i].call
  }

  /** What the call got so far. A failed operation got nothing. */
  function GotOf(s: State, b: Bearer): Option<OpState>
    requires Bears(s, b)
  {
    match b
    case InOp(id) => if s.ops[id].state.Done? then Some(s.ops[id].state) else None
    case InThread(i) =>
      if s.threads[i].RecvEmpty? || !s.threads[i].done.Done? then None else Some(s.threads[i].done)
  }

  predicate Took(s: State, q: Qid, k: nat, call: nat) {
    q in s.past.takers && k < |s.past.takers[q]| && s.past.takers[q][k].call == call
  }

  /** A call that got an item is recorded as its taker; any other call took none. */
  ghost predicate BearerOk(s: State, b: Bearer)
    requires Bears(s, b)
  {
    && CallOf(s, b) < s.past.calls
    && match GotOf(s, b)
       case None => forall q: Qid, k: nat :: !Took(s, q, k, CallOf(s, b))
       case Some(got) =>
         && got.Done? && Took(s, got.queue, got.index, CallOf(s, b))
         && got.queue in s.past.sent && got.index < |s.past.sent[got.queue]|
         && got.item == s.past.sent[got.queue][got.index]
  }

  ghost predicate CallsOk(s: State) {
    && (forall b | Bears(s, b) :: BearerOk(s, b))
    && (forall b, c | Bears(s, b) && Bears(s, c) && CallOf(s, b) == CallOf(s, c) :: b == c)
    && TakersOk(s)
  }

  /** No call took two items. */
  ghost predicate TakersOk(s: State) {
    && (forall q: Qid, k: nat, call: nat | Took(s, q, k, call) :: call < s.past.calls)
    && (forall q: Qid, k: nat, p: Qid, j: nat, call: nat | Took(s, q, k, call) && Took(s, p, j, call) ::
          q == p && k == j)
  }

  lemma TakersTake(s: State, r: State, q: Qid, call: nat)
    requires TakersOk(s) && call < s.past.calls && (forall p: Qid, k: nat :: !Took(s, p, k, call))
    requires q in s.past.takers && q in s.kernel.queues && s.kernel.queues[q] != []
    requires r.past == Take(s, q, call).past
    ensures TakersOk(r) && Took(r, q, |s.past.takers[q]|, call)
  {
    forall p: Qid, k: nat, x: nat | Took(r, p, k, x)
      ensures Took(s, p, k, x) || (p == q && k == |s.past.takers[q]| && x == call)
    {
    }
  }

  predicate Same(s: State, b: Bearer, r: State, c: Bearer) {
    Bears(s, b) && Bears(r, c) && CallOf(s, b) == CallOf(r, c) && GotOf(s, b) == GotOf(r, c)
  }

  /** Nothing was taken, and what was sent stays sent. */
  predicate OnlySends(s: State, r: State) {
    && s.past.calls <= r.past.calls
    && (forall q | q in s.past.takers :: q in r.past.takers && r.past.takers[q] == s.past.takers[q])
    && (forall q | q in r.past.takers && q !in s.past.takers :: r.past.takers[q] == [])
    && (forall q | q in s.past.sent :: q in r.past.sent && s.past.sent[q] <= r.past.sent[q])
  }

  /** Calls keep what they got; at most one moves from bearer `a` to bearer `b`. */
  lemma CallsMove(s: State, r: State, a: Bearer, b: Bearer)
    requires CallsOk(s) && OnlySends(s, r)
    requires forall c | Bears(r, c) && c != b :: c != a && Same(s, c, r, c)
    requires Bears(r, b) ==> Same(s, a, r, b)
    ensures CallsOk(r)
  {
    forall c | Bears(r, c) ensures BearerOk(r, c) {
      var d := if c == b then a else c;
      assert BearerOk(s, d);
      if GotOf(r, c).None? {
        forall q: Qid, k: nat ensures !Took(r, q, k, CallOf(r, c)) {
          assert !Took(s, q, k, CallOf(s, d));
        }
      }
    }
    forall q: Qid, k: nat, call: nat | Took(r, q, k, call) ensures Took(s, q, k, call) {
    }
  }

  /** A new call starts empty-handed at bearer `b`. */
  lemma CallsFresh(s: State, r: State, b: Bearer)
    requires CallsOk(s) && r.past.takers == s.past.takers && r.past.sent == s.past.sent
    requires r.past.calls == s.past.calls + 1
    requires !Bears(s, b) && Bears(r, b) && CallOf(r, b) == s.past.calls && GotOf(r, b).None?
    requires forall c | Bears(r, c) && c != b :: Same(s, c, r, c)
    ensures CallsOk(r)
  {
    forall q: Qid, k: nat, call: nat | Took(r, q, k, call) ensures Took(s, q, k, call) {
    }
    forall c | Bears(r, c) ensures BearerOk(r, c) {
      if c != b {
        assert BearerOk(s, c);
        if GotOf(r, c).None? {
          forall q: Qid, k: nat ensures !Took(r, q, k, CallOf(r, c)) {
            assert !Took(s, q, k, CallOf(s, c));
          }
        }
      }
    }
    forall c | Bears(r, c) && c != b ensures CallOf(r, c) < s.past.calls {
      assert BearerOk(s, c);
    }
  }

  /** The empty-handed call at bearer `b` takes the next item of `q`. */
  lemma CallsTake(s: State, r: State, q: Qid, b: Bearer)
    requires CallsOk(s) && QueueOk(s, q) && s.kernel.queues[q] != []
    requires Bears(s, b) && GotOf(s, b).None?
    requires r.past == Take(s, q, CallOf(s, b)).past
    requires Bears(r, b) && CallOf(r, b) == CallOf(s, b) && GotOf(r, b) == Some(Head(s, q))
    requires forall c | Bears(r, c) && c != b :: Same(s, c, r, c)
    ensures CallsOk(r)
  {
    assert BearerOk(s, b);
    TakersTake(s, r, q, CallOf(s, b));
    forall c | Bears(r, c) && c != b ensures BearerOk(r, c) {
      TakeOthers(s, r, q, b, c);
    }
    assert BearerOk(r, b);
  }

  lemma TakeOthers(s: State, r: State, q: Qid, b: Bearer, c: Bearer)
    requires CallsOk(s) && Bears(s, b) && Same(s, c, r, c) && c != b
    requires q in s.past.takers && q in s.kernel.queues && s.kernel.queues[q] != []
    requires r.past == Take(s, q, CallOf(s, b)).past
    ensures BearerOk(r, c)
  {
    assert BearerOk(s, c) && CallOf(s, c) != CallOf(s, b);
    if GotOf(r, c).None? {
      forall p: Qid, k: nat ensures !Took(r, p, k, CallOf(r, c)) {
        assert !Took(s, p, k, CallOf(s, c));
      }
    } else {
      var got := GotOf(s, c).value;
      assert Took(s, got.queue, got.index, CallOf(s, c));
    }
  }

  /** Only thread `i` moves, and it keeps the call it bears, if any. */
  lemma CallsThread(s: State, r: State, i: nat)
    requires CallsOk(s) && OnlySends(s, r) && r.ops == s.ops
    requires i < |s.threads| && |r.threads| == |s.threads| && r.threads == s.threads[i := r.threads[i]]
    requires Bears(r, InThread(i)) ==> Same(s, InThread(i), r, InThread(i))
    ensures CallsOk(r)
  {
    forall c | Bears(r, c) && c != InThread(i) ensures Same(s, c, r, c) {
    }
    CallsMove(s, r, InThread(i), InThread(i));
  }

  /** Only operation `id` changes, and it keeps what its call got. */
  lemma CallsOp(s: State, r: State, id: OpId)
    requires CallsOk(s) && OnlySends(s, r) && r.threads == s.threads
    requires forall k | k in r.ops && k != id :: k in s.ops && r.ops[k] == s.ops[k]
    requires id in r.ops ==> Same(s, InOp(id), r, InOp(id))
    ensures CallsOk(r)
  {
    forall c | Bears(r, c) && c != InOp(id) ensures Same(s, c, r, c) {
    }
    CallsMove(s, r, InOp(id), InOp(id));
  }

  /** Operation `id` takes the next item of `q`; thread `i` bears no call. */
  lemma CallsDeliver(s: State, r: State, q: Qid, id: OpId, i: nat)
    requires CallsOk(s) && QueueOk(s, q) && s.kernel.queues[q] != []
    requires id in s.ops && s.ops[id].state.Waiting?
    requires r.past == Take(s, q, s.ops[id].call).past
    requires r.ops == s.ops[id := s.ops[id].(state := Head(s, q))]
    requires i < |s.threads| && |r.threads| == |s.threads| && r.threads == s.threads[i := r.threads[i]]
    requires !Bears(s, InThread(i)) && !Bears(r, InThread(i))
    ensures CallsOk(r)
  {
    forall c | Bears(r, c) && c != InOp(id) ensures Same(s, c, r, c) {
    }
    CallsTake(s, r, q, InOp(id));
  }

  lemma CallsSetup(s: State, e: Event)
    requires CallsOk(s) && KernelOk(s) && Enabled(s, e) && !e.Step?
    ensures CallsOk(Apply(s, e))
  {
    var r := Apply(s, e);
    if e.Drop? {
      CallsOp(s, r, e.id);
    } else {
      forall c | Bears(r, c) ensures Same(s, c, r, c) {
      }
      CallsMove(s, r, InThread(|s.threads|), InThread(|s.threads|));
    }
  }

  lemma CallsMaking(s: State, i: nat, act: Action)
    requires CallsOk(s) && KernelOk(s) && i < |s.threads| && Ready(s, s.threads[i], act)
    requires act.MakeQueue? || act.Publish? || act.Record?
    ensures CallsOk(Making(s, i, act))
  {
    CallsThread(s, Making(s, i, act), i);
  }

  lemma CallsSending(s: State, i: nat, act: Action)
    requires CallsOk(s) && i < |s.threads| && Ready(s, s.threads[i], act)
    requires act.SendCharge? || act.SendPush?
    ensures CallsOk(Sending(s, i, act))
  {
    var r := Sending(s, i, act);
    assert r.past.takers == s.past.takers && r.past.calls == s.past.calls;
    assert OnlySends(s, r);
    CallsThread(s, r, i);
  }

  /** The wake pass hands the next item to operation `id`. */
  lemma CallsVisit(s: State, i: nat, id: OpId)
    requires CallsOk(s) && KernelOk(s) && i < |s.threads| && Ready(s, s.threads[i], PassVisit(id))
    requires WaitsOn(s, id, s.threads[i].queue) && s.kernel.queues[s.threads[i].queue] != []
    ensures CallsOk(Walking(s, i, PassVisit(id)))
  {
    assert QueueOk(s, s.threads[i].queue);
    CallsDeliver(s, Walking(s, i, PassVisit(id)), s.threads[i].queue, id, i);
  }

  lemma CallsWalking(s: State, i: nat, act: Action)
    requires CallsOk(s) && KernelOk(s) && i < |s.threads| && Ready(s, s.threads[i], act)
    requires act.PassStart? || act.PassVisit? || act.PassRelease? || act.PassEnd?
    ensures CallsOk(Walking(s, i, act))
  {
    if act.PassVisit? && WaitsOn(s, act.id, s.threads[i].queue) && s.kernel.queues[s.threads[i].queue] != [] {
      CallsVisit(s, i, act.id);
    } else {
      CallsThread(s, Walking(s, i, act), i);
    }
  }

  /** A receive call starts in thread `i`, empty-handed. */
  lemma CallsBegin(s: State, i: nat, pc: Pc)
    requires CallsOk(s) && i < |s.threads| && s.threads[i].Idle?
    requires (exists l :: pc == RecvEmpty(l, s.past.calls)) || pc == RecvReady(s.past.calls, Failed(false))
    ensures CallsOk(At(s.(past := s.past.(calls := s.past.calls + 1)), i, pc))
  {
    var m := At(s.(past := s.past.(calls := s.past.calls + 1)), i, pc);
    forall c | Bears(m, c) && c != InThread(i) ensures Same(s, c, m, c) {
    }
    CallsFresh(s, m, InThread(i));
  }

  /** The call of thread `i` takes the next item at once. */
  lemma CallsGrab(s: State, i: nat, q: Qid)
    requires CallsOk(s) && QueueOk(s, q) && s.kernel.queues[q] != []
    requires i < |s.threads| && s.threads[i].RecvEmpty?
    ensures CallsOk(At(Take(s, q, s.threads[i].call), i, RecvGot(s.threads[i].call, Head(s, q))))
  {
    var r := At(Take(s, q, s.threads[i].call), i, RecvGot(s.threads[i].call, Head(s, q)));
    forall c | Bears(r, c) && c != InThread(i) ensures Same(s, c, r, c) {
    }
    CallsTake(s, r, q, InThread(i));
  }

  lemma CallsTry(s: State, i: nat, l: Lid)
    requires CallsOk(s) && KernelOk(s) && i < |s.threads| && s.threads[i].Idle?
    ensures CallsOk(Receiving(s, i, RecvTry(l)))
  {
    var call := s.past.calls;
    if Live(s, l) {
      var q, m := s.kernel.handles[l], At(s.(past := s.past.(calls := call + 1)), i, RecvEmpty(l, call));
      CallsBegin(s, i, RecvEmpty(l, call));
      if s.kernel.queues[q] != [] {
        assert QueueOk(s, q) && QueueOk(m, q);
        CallsGrab(m, i, q);
        assert m.threads[i := RecvGot(call, Head(s, q))] == s.threads[i := RecvGot(call, Head(s, q))];
      }
    } else {
      CallsBegin(s, i, RecvReady(call, Failed(false)));
    }
  }

  lemma CallsReceiving(s: State, i: nat, act: Action)
    requires CallsOk(s) && KernelOk(s) && i < |s.threads| && Ready(s, s.threads[i], act)
    requires act.RecvRelease? || act.RecvInsert?
    ensures CallsOk(Receiving(s, i, act))
  {
    var r := Receiving(s, i, act);
    if act.RecvRelease? {
      CallsThread(s, r, i);
    } else {
      forall c | Bears(r, c) && c != InOp(act.id) ensures c != InThread(i) && Same(s, c, r, c) {
      }
      assert BearerOk(s, InThread(i));
      CallsMove(s, r, InThread(i), InOp(act.id));
    }
  }

  /** A poll pops the next item. */
  lemma CallsPoll(s: State, i: nat, id: OpId, expired: bool)
    requires CallsOk(s) && KernelOk(s) && i < |s.threads| && s.threads[i].Idle? && id in s.ops && !s.locked
    requires s.ops[id].state.Waiting? && Live(s, s.ops[id].state.handle)
    requires s.kernel.queues[s.kernel.handles[s.ops[id].state.handle]] != []
    ensures CallsOk(Polling(s, i, Poll(id, expired)))
  {
    var q := s.kernel.handles[s.ops[id].state.handle];
    assert QueueOk(s, q);
    CallsDeliver(s, Polling(s, i, Poll(id, expired)), q, id, i);
  }

  lemma CallsPolling(s: State, i: nat, act: Action)
    requires CallsOk(s) && KernelOk(s) && i < |s.threads| && Ready(s, s.threads[i], act)
    requires act.Poll? || act.PollRelease?
    ensures CallsOk(Polling(s, i, act))
  {
    if act.Poll? && s.ops[act.id].state.Waiting? && Live(s, s.ops[act.id].state.handle) {
      if s.kernel.queues[s.kernel.handles[s.ops[act.id].state.handle]] != [] {
        CallsPoll(s, i, act.id, act.expired);
      } else {
        CallsOp(s, Polling(s, i, act), act.id);
      }
    } else if act.PollRelease? {
      CallsThread(s, Polling(s, i, act), i);
    }
  }

  lemma CallsStep(s: State, e: Event)
    requires CallsOk(s) && KernelOk(s) && Enabled(s, e)
    ensures CallsOk(Apply(s, e))
  {
    if !e.Step? {
      CallsSetup(s, e);
    } else if e.act.SendCharge? || e.act.SendPush? {
      CallsSending(s, e.i, e.act);
    } else if e.act.RecvTry? {
      CallsTry(s, e.i, e.act.handle);
    } else if e.act.RecvRelease? || e.act.RecvInsert? {
      CallsReceiving(s, e.i, e.act);
    } else if e.act.Poll? || e.act.PollRelease? {
      CallsPolling(s, e.i, e.act);
    } else if e.act.MakeQueue? || e.act.Publish? || e.act.Record? {
      CallsMaking(s, e.i, e.act);
    } else {
      CallsWalking(s, e.i, e.act);
    }
  }

  lemma {:induction false} CallsAlways(n: nat, es: seq<Event>)
    requires IsRun(n, es)
    ensures CallsOk(After(n, es))
  {
    if es != [] {
      KernelAlways(n, es[..|es| - 1]);
      CallsAlways(n, es[..|es| - 1]);
      CallsStep(After(n, es[..|es| - 1]), es[|es| - 1]);
    }
  }

  /**
   Each popped item goes to exactly one receive: no call takes two items, a
   completed operation holds the very item its call took, and a waiting or
   failed one took none.
   */
  lemma OneReceiverPerItem(n: nat, es: seq<Event>, id: OpId)
    requires IsRun(n, es) && id in After(n, es).ops
    ensures TakersOk(After(n, es))
    ensures BearerOk(After(n, es), InOp(id))
  {
    CallsAlways(n, es);
  }

  // ---------------------------------------------------------------------
  // How receives end
  // ---------------------------------------------------------------------

  /** The event is a poll that finds the operation's deadline passed and its queue empty. */
  predicate TimesOut(s: State, e: Event, id: OpId) {
    && e.Step? && e.act == Poll(id, true) && id in s.ops && s.ops[id].state.Waiting?
    && Live(s, s.ops[id].state.handle) && s.kernel.queues[s.kernel.handles[s.ops[id].state.handle]] == []
  }

  lemma PollDecides(s: State, i: nat, id: OpId, expired: bool, q: Qid)
    requires i < |s.threads| && Ready(s, s.threads[i], Poll(id, expired)) && WaitsOn(s, id, q)
    ensures var r := Polling(s, i, Poll(id, expired));
            && id in r.ops && r.ops[id].call == s.ops[id].call
            && r.ops[id].state == (if s.kernel.queues[q] != [] then Done(s.kernel.queues[q][0], q, |s.past.takers[q]|)
                                   else if expired then Failed(true)
                                   else Waiting(s.ops[id].state.handle, true))
  {
  }

  lemma FailsPolling(s: State, i: nat, act: Action, id: OpId)
    requires i < |s.threads| && Ready(s, s.threads[i], act) && (act.Poll? || act.PollRelease?)
    requires id in s.ops && s.ops[id].state.Waiting?
    ensures var r := Polling(s, i, act);
            id in r.ops && (r.ops[id].state.Failed? <==> TimesOut(s, Step(i, act), id))
  {
  }

  lemma FailsOther(s: State, e: Event, id: OpId)
    requires Enabled(s, e) && !(e.Step? && (e.act.Poll? || e.act.PollRelease?))
    requires id in s.ops && s.ops[id].state.Waiting?
    ensures id in Apply(s, e).ops ==> !Apply(s, e).ops[id].state.Failed?
  {
  }

  /** In every run, a waiting receive fails exactly by a poll after its deadline on an empty queue. */
  lemma TimesOutExactly(n: nat, es: seq<Event>, e: Event, id: OpId)
    requires IsRun(n, es + [e]) && id in After(n, es).ops && After(n, es).ops[id].state.Waiting?
    requires id in After(n, es + [e]).ops
    ensures After(n, es + [e]).ops[id].state.Failed? <==> TimesOut(After(n, es), e, id)
  {
    assert (es + [e])[..|es + [e]| - 1] == es;
    var s := After(n, es);
    if e.Step? && (e.act.Poll? || e.act.PollRelease?) {
      FailsPolling(s, e.i, e.act, id);
    } else {
      FailsOther(s, e, id);
    }
  }

  lemma FinalGiving(s: State, e: Event, id: OpId)
    requires Enabled(s, e) && id in s.ops && !s.ops[id].state.Waiting?
    requires e.Step? ==> !(e.act.Poll? || e.act.PollRelease? || e.act.PassVisit? || e.act.RecvInsert?)
    ensures id in Apply(s, e).ops ==> Apply(s, e).ops[id] == s.ops[id]
  {
  }

  /** A completed receive keeps its completion until it is dropped. */
  lemma CompletionIsFinal(n: nat, es: seq<Event>, e: Event, id: OpId)
    requires IsRun(n, es + [e]) && id in After(n, es).ops && !After(n, es).ops[id].state.Waiting?
    ensures id in After(n, es + [e]).ops ==> After(n, es + [e]).ops[id] == After(n, es).ops[id]
  {
    assert (es + [e])[..|es + [e]| - 1] == es;
    var s := After(n, es);
    if e.Step? && (e.act.Poll? || e.act.PollRelease?) {
      assert Apply(s, e) == Polling(s, e.i, e.act);
    } else if e.Step? && e.act.PassVisit? {
      assert Apply(s, e) == Walking(s, e.i, e.act);
    } else if e.Step? && e.act.RecvInsert? {
      assert Apply(s, e) == Receiving(s, e.i, e.act);
    } else {
      FinalGiving(s, e, id);
    }
  }

  /** In every run, a poll of a waiting receive delivers the next item of its queue if there is one. */
  lemma PollDelivers(n: nat, es: seq<Event>, i: nat, id: OpId, expired: bool, q: Qid)
    requires IsRun(n, es + [Step(i, Poll(id, expired))]) && WaitsOn(After(n, es), id, q)
    ensures var s, r := After(n, es), After(n, es + [Step(i, Poll(id, expired))]);
            && id in r.ops && q in r.kernel.queues
            && (s.kernel.queues[q] != [] ==>
                  && r.ops[id].state.Done? && r.ops[id].state.item == s.kernel.queues[q][0]
                  && r.kernel.queues[q] == s.kernel.queues[q][1..])
            && (s.kernel.queues[q] == [] ==>
                  r.ops[id].state == if expired then Failed(true) else Waiting(s.ops[id].state.handle, true))
  {
    var es1 := es + [Step(i, Poll(id, expired))];
    assert es1[..|es1| - 1] == es;
    PollDecides(After(n, es), i, id, expired, q);
  }
}
