/** Exactly which waiting receives can be stranded with items in their queue. */
module DeliveryWaiters {
  import opened Delivery
  import opened DeliveryItems

  /** The thread pushed to `q` and its wake pass still has to visit `id`. */
  predicate WillVisit(pc: Pc, q: Qid, id: OpId) {
    pc == Pushed(q) || ((pc.Passing? || pc.PassOwes?) && pc.queue == q && id in pc.left)
  }

  ghost predicate SomeoneVisits(threads: seq<Pc>, q: Qid, id: OpId) {
    exists i: nat :: i < |threads| && WillVisit(threads[i], q, id)
  }

  /** The operation waits on `q`, the queue holds an item, and no sender will come by. */
  ghost predicate Stranded(s: State, id: OpId, q: Qid) {
    WaitsOn(s, id, q) && s.kernel.queues[q] != [] && !SomeoneVisits(s.threads, q, id)
  }

  // ---------------------------------------------------------------------
  // A receive that is not stranded stays so
  // ---------------------------------------------------------------------

  /** All threads but `i` stay, and `i` does not stop serving `id`. */
  lemma StillVisited(before: seq<Pc>, after: seq<Pc>, i: nat, q: Qid, id: OpId)
    requires SomeoneVisits(before, q, id) && |after| == |before|
    requires forall j: nat | j < |before| && j != i :: after[j] == before[j]
    requires i < |before| && WillVisit(before[i], q, id) ==> WillVisit(after[i], q, id)
    ensures SomeoneVisits(after, q, id)
  {
    var j: nat :| j < |before| && WillVisit(before[j], q, id);
    assert WillVisit(after[j], q, id);
  }

  lemma SafeSending(s: State, i: nat, act: Action, id: OpId, q: Qid)
    requires i < |s.threads| && Ready(s, s.threads[i], act) && (act.SendCharge? || act.SendPush?)
    requires WaitsOn(s, id, q) && !Stranded(s, id, q)
    ensures !Stranded(Sending(s, i, act), id, q)
  {
    var r := Sending(s, i, act);
    if act.SendPush? && s.threads[i].queue == q {
      assert WillVisit(r.threads[i], q, id);
    } else if SomeoneVisits(s.threads, q, id) {
      StillVisited(s.threads, r.threads, i, q, id);
    }
  }

  lemma SafeWalking(s: State, i: nat, act: Action, id: OpId, q: Qid)
    requires i < |s.threads| && Ready(s, s.threads[i], act)
    requires act.PassStart? || act.PassVisit? || act.PassRelease? || act.PassEnd?
    requires WaitsOn(s, id, q) && !Stranded(s, id, q)
    ensures !Stranded(Walking(s, i, act), id, q)
  {
    var r := Walking(s, i, act);
    if Stranded(r, id, q) {
      StillVisited(s.threads, r.threads, i, q, id);
    }
  }

  lemma SafeReceiving(s: State, i: nat, act: Action, id: OpId, q: Qid)
    requires i < |s.threads| && Ready(s, s.threads[i], act)
    requires act.RecvTry? || act.RecvRelease? || act.RecvInsert?
    requires WaitsOn(s, id, q) && !Stranded(s, id, q)
    ensures !Stranded(Receiving(s, i, act), id, q)
  {
    if SomeoneVisits(s.threads, q, id) {
      StillVisited(s.threads, Receiving(s, i, act).threads, i, q, id);
    }
  }

  lemma SafePolling(s: State, i: nat, act: Action, id: OpId, q: Qid)
    requires i < |s.threads| && Ready(s, s.threads[i], act) && (act.Poll? || act.PollRelease?)
    requires WaitsOn(s, id, q) && !Stranded(s, id, q)
    ensures !Stranded(Polling(s, i, act), id, q)
  {
    if SomeoneVisits(s.threads, q, id) {
      StillVisited(s.threads, Polling(s, i, act).threads, i, q, id);
    }
  }

  lemma SafeMaking(s: State, i: nat, act: Action, id: OpId, q: Qid)
    requires i < |s.threads| && Ready(s, s.threads[i], act) && (act.MakeQueue? || act.Publish? || act.Record?)
    requires WaitsOn(s, id, q) && !Stranded(s, id, q)
    ensures !Stranded(Making(s, i, act), id, q)
  {
    if SomeoneVisits(s.threads, q, id) {
      StillVisited(s.threads, Making(s, i, act).threads, i, q, id);
    }
  }

  /**
   A waiting receive whose queue is empty, or which some sender will still visit,
   stays so under every event for as long as it waits, polled or not.
   */
  lemma SafeStep(s: State, e: Event, id: OpId, q: Qid)
    requires Enabled(s, e) && WaitsOn(s, id, q) && !Stranded(s, id, q)
    ensures !Stranded(Apply(s, e), id, q)
  {
    if e.Step? {
      if e.act.SendCharge? || e.act.SendPush? {
        SafeSending(s, e.i, e.act, id, q);
      } else if e.act.RecvTry? || e.act.RecvRelease? || e.act.RecvInsert? {
        SafeReceiving(s, e.i, e.act, id, q);
      } else if e.act.Poll? || e.act.PollRelease? {
        SafePolling(s, e.i, e.act, id, q);
      } else if e.act.MakeQueue? || e.act.Publish? || e.act.Record? {
        SafeMaking(s, e.i, e.act, id, q);
      } else {
        SafeWalking(s, e.i, e.act, id, q);
      }
    }
  }

  // ---------------------------------------------------------------------
  // Exactly the receives inserted too late
  // ---------------------------------------------------------------------

  predicate InPass(pc: Pc) {
    pc.Passing? || pc.PassOwes?
  }

  /** A wake pass holds the operation table's lock, so there is one at most. */
  predicate LockOk(locked: bool, threads: seq<Pc>) {
    && (forall i | 0 <= i < |threads| && InPass(threads[i]) :: locked)
    && (forall i, j | 0 <= i < j < |threads| :: !InPass(threads[i]) || !InPass(threads[j]))
  }

  lemma LockStays(locked: bool, threads: seq<Pc>, i: nat, pc: Pc)
    requires LockOk(locked, threads) && i < |threads| && (InPass(pc) ==> InPass(threads[i]))
    ensures LockOk(locked, threads[i := pc])
  {
    var r := threads[i := pc];
    forall j | 0 <= j < |r| && InPass(r[j]) ensures InPass(threads[j]) {
    }
  }

  lemma LockTaking(s: State, i: nat, act: Action)
    requires LockOk(s.locked, s.threads) && Enabled(s, Step(i, act))
    requires act.RecvTry? || act.RecvRelease? || act.RecvInsert? || act.Poll? || act.PollRelease?
    ensures var r := Apply(s, Step(i, act)); LockOk(r.locked, r.threads)
  {
    LockStays(s.locked, s.threads, i, Apply(s, Step(i, act)).threads[i]);
  }

  lemma LockGiving(s: State, i: nat, act: Action)
    requires LockOk(s.locked, s.threads) && Enabled(s, Step(i, act))
    requires act.SendCharge? || act.SendPush? || act.MakeQueue? || act.Publish? || act.Record?
    ensures var r := Apply(s, Step(i, act)); LockOk(r.locked, r.threads)
  {
    LockStays(s.locked, s.threads, i, Apply(s, Step(i, act)).threads[i]);
  }

  lemma LockWalking(s: State, i: nat, act: Action)
    requires LockOk(s.locked, s.threads) && i < |s.threads| && Ready(s, s.threads[i], act)
    requires act.PassStart? || act.PassVisit? || act.PassRelease? || act.PassEnd?
    ensures var r := Walking(s, i, act); LockOk(r.locked, r.threads)
  {
    var r := Walking(s, i, act);
    if act.PassStart? {
      assert forall j | 0 <= j < |s.threads| :: !InPass(s.threads[j]);
    } else if act.PassEnd? {
      forall j | 0 <= j < |r.threads| ensures !InPass(r.threads[j]) {
        assert InPass(s.threads[i]) && (j != i ==> r.threads[j] == s.threads[j]);
      }
    } else {
      LockStays(s.locked, s.threads, i, r.threads[i]);
    }
  }

  lemma LockStep(s: State, e: Event)
    requires LockOk(s.locked, s.threads) && Enabled(s, e)
    ensures LockOk(Apply(s, e).locked, Apply(s, e).threads)
  {
    if e.Step? {
      if e.act.RecvTry? || e.act.RecvRelease? || e.act.RecvInsert? || e.act.Poll? || e.act.PollRelease? {
        LockTaking(s, e.i, e.act);
      } else if e.act.PassStart? || e.act.PassVisit? || e.act.PassRelease? || e.act.PassEnd? {
        LockWalking(s, e.i, e.act);
      } else {
        LockGiving(s, e.i, e.act);
      }
    }
  }

  lemma {:induction false} LockAlways(n: nat, es: seq<Event>)
    requires IsRun(n, es)
    ensures LockOk(After(n, es).locked, After(n, es).threads)
  {
    if es != [] {
      LockAlways(n, es[..|es| - 1]);
      LockStep(After(n, es[..|es| - 1]), es[|es| - 1]);
    }
  }

  /**
   Thread `i` inserts its waiting operation too late: its queue already holds an
   item, and no sender is between its push and its wake pass.
   */
  predicate TooLate(s: State, i: nat, q: Qid) {
    && i < |s.threads| && s.threads[i].RecvEmpty? && Live(s, s.threads[i].handle)
    && s.kernel.handles[s.threads[i].handle] == q && s.kernel.queues[q] != [] && Pushed(q) !in s.threads
  }

  lemma InsertedExactly(s: State, i: nat, id: OpId, q: Qid)
    requires LockOk(s.locked, s.threads)
    requires i < |s.threads| && Ready(s, s.threads[i], RecvInsert(id)) && s.threads[i].RecvEmpty?
    ensures Stranded(Receiving(s, i, RecvInsert(id)), id, q) <==> TooLate(s, i, q)
  {
    var r := Receiving(s, i, RecvInsert(id));
    if j: nat :| j < |s.threads| && s.threads[j] == Pushed(q) {
      assert WillVisit(r.threads[j], q, id);
    }
    forall j: nat | j < |r.threads| && WillVisit(r.threads[j], q, id) ensures Pushed(q) in s.threads {
      assert j != i && s.threads[j] == r.threads[j];
    }
  }

  /** After `pre` and after every event of `es`, the operation waits on `q`. */
  ghost predicate WaitsThroughout(n: nat, pre: seq<Event>, es: seq<Event>, id: OpId, q: Qid)
    decreases |es|
  {
    WaitsOn(After(n, pre + es), id, q) && (es == [] || WaitsThroughout(n, pre, es[..|es| - 1], id, q))
  }

  ghost predicate NeverStranded(n: nat, pre: seq<Event>, es: seq<Event>, id: OpId, q: Qid)
    decreases |es|
  {
    !Stranded(After(n, pre + es), id, q) && (es == [] || NeverStranded(n, pre, es[..|es| - 1], id, q))
  }

  lemma SafeOnce(n: nat, es: seq<Event>, e: Event, id: OpId, q: Qid)
    requires IsRun(n, es + [e]) && WaitsOn(After(n, es), id, q) && !Stranded(After(n, es), id, q)
    ensures IsRun(n, es) && !Stranded(After(n, es + [e]), id, q)
  {
    assert (es + [e])[..|es + [e]| - 1] == es;
    SafeStep(After(n, es), e, id, q);
  }

  lemma RunBefore(n: nat, es: seq<Event>, e: Event)
    requires IsRun(n, es + [e])
    ensures IsRun(n, es)
  {
    assert (es + [e])[..|es + [e]| - 1] == es;
  }

  lemma {:induction false} SafeOnwards(n: nat, pre: seq<Event>, es: seq<Event>, id: OpId, q: Qid)
    requires IsRun(n, pre + es) && WaitsThroughout(n, pre, es, id, q) && !Stranded(After(n, pre), id, q)
    ensures NeverStranded(n, pre, es, id, q)
    decreases |es|
  {
    if es == [] {
      assert pre + es == pre;
    } else {
      var init, e := es[..|es| - 1], es[|es| - 1];
      assert pre + es == pre + init + [e];
      RunBefore(n, pre + init, e);
      SafeOnwards(n, pre, init, id, q);
      SafeOnce(n, pre + init, e, id, q);
    }
  }

  lemma {:induction false} SafeFirst(n: nat, pre: seq<Event>, es: seq<Event>, id: OpId, q: Qid)
    requires NeverStranded(n, pre, es, id, q)
    ensures !Stranded(After(n, pre), id, q)
    decreases |es|
  {
    if es == [] {
      assert pre + es == pre;
    } else {
      SafeFirst(n, pre, es[..|es| - 1], id, q);
    }
  }

  /**
   Exactly which receives can be stranded: one that waits throughout a run is
   never stranded if and only if its operation was not inserted too late, that is
   on a queue already holding an item with no sender still to start its wake pass.
   */
  lemma StrandedExactly(n: nat, es: seq<Event>, i: nat, id: OpId, fs: seq<Event>, q: Qid)
    requires IsRun(n, es + [Step(i, RecvInsert(id))]) && IsRun(n, es + [Step(i, RecvInsert(id))] + fs)
    requires WaitsThroughout(n, es + [Step(i, RecvInsert(id))], fs, id, q)
    ensures NeverStranded(n, es + [Step(i, RecvInsert(id))], fs, id, q) <==> !TooLate(After(n, es), i, q)
  {
    var pre := es + [Step(i, RecvInsert(id))];
    InsertedInRun(n, es, i, id, fs, q);
    if NeverStranded(n, pre, fs, id, q) {
      SafeFirst(n, pre, fs, id, q);
    }
    if !Stranded(After(n, pre), id, q) {
      SafeOnwards(n, pre, fs, id, q);
    }
  }

  lemma {:induction false} WaitsFirst(n: nat, pre: seq<Event>, es: seq<Event>, id: OpId, q: Qid)
    requires WaitsThroughout(n, pre, es, id, q)
    ensures WaitsOn(After(n, pre), id, q)
    decreases |es|
  {
    if es == [] {
      assert pre + es == pre;
    } else {
      WaitsFirst(n, pre, es[..|es| - 1], id, q);
    }
  }

  /** The insertion itself: a receive that then waits came empty-handed. */
  lemma InsertedInRun(n: nat, es: seq<Event>, i: nat, id: OpId, fs: seq<Event>, q: Qid)
    requires IsRun(n, es + [Step(i, RecvInsert(id))])
    requires WaitsThroughout(n, es + [Step(i, RecvInsert(id))], fs, id, q)
    ensures Stranded(After(n, es + [Step(i, RecvInsert(id))]), id, q) <==> TooLate(After(n, es), i, q)
  {
    var pre := es + [Step(i, RecvInsert(id))];
    WaitsFirst(n, pre, fs, id, q);
    assert pre[..|pre| - 1] == es;
    HandlesAlways(n, es);
    LockAlways(n, es);
    InsertedNow(After(n, es), i, id, q);
  }

  lemma InsertedNow(s: State, i: nat, id: OpId, q: Qid)
    requires HandlesOk(s) && LockOk(s.locked, s.threads) && Enabled(s, Step(i, RecvInsert(id)))
    requires WaitsOn(Apply(s, Step(i, RecvInsert(id))), id, q)
    ensures Stranded(Apply(s, Step(i, RecvInsert(id))), id, q) <==> TooLate(s, i, q)
  {
    assert ThreadHandleOk(s, s.threads[i]);
    InsertedExactly(s, i, id, q);
  }

  // ---------------------------------------------------------------------
  // Polled receives
  // ---------------------------------------------------------------------

  predicate ThreadHandleOk(s: State, pc: Pc) {
    && (pc.RecvEmpty? ==> pc.handle in s.kernel.handles)
    && (pc.RecvGot? || pc.RecvReady? ==> !pc.done.Waiting?)
  }

  /** A receive waits on a handle that exists. */
  ghost predicate HandlesOk(s: State) {
    && (forall id | id in s.ops && s.ops[id].state.Waiting? :: s.ops[id].state.handle in s.kernel.handles)
    && (forall i | 0 <= i < |s.threads| :: ThreadHandleOk(s, s.threads[i]))
  }

  /** Handles stay, thread `i` moves, and operations other than `id` stay or go. */
  lemma HandlesKept(s: State, r: State, i: nat, id: OpId)
    requires HandlesOk(s) && (forall l | l in s.kernel.handles :: l in r.kernel.handles)
    requires |r.threads| == |s.threads| && forall j | 0 <= j < |s.threads| && j != i :: r.threads[j] == s.threads[j]
    requires i < |s.threads| ==> ThreadHandleOk(r, r.threads[i])
    requires forall x | x in r.ops && x != id :: x in s.ops && r.ops[x] == s.ops[x]
    requires id in r.ops && r.ops[id].state.Waiting? ==> r.ops[id].state.handle in r.kernel.handles
    ensures HandlesOk(r)
  {
    forall j | 0 <= j < |r.threads| ensures ThreadHandleOk(r, r.threads[j]) {
      if j != i { assert ThreadHandleOk(s, s.threads[j]); }
    }
  }

  lemma HandlesTaking(s: State, i: nat, act: Action)
    requires HandlesOk(s) && Enabled(s, Step(i, act))
    requires act.RecvTry? || act.RecvRelease? || act.RecvInsert?
    ensures HandlesOk(Apply(s, Step(i, act)))
  {
    var r := Apply(s, Step(i, act));
    assert ThreadHandleOk(s, s.threads[i]);
    HandlesKept(s, r, i, if act.RecvInsert? then act.id else 0);
  }

  lemma HandlesSending(s: State, i: nat, act: Action)
    requires HandlesOk(s) && i < |s.threads| && Ready(s, s.threads[i], act)
    requires act.SendCharge? || act.SendPush?
    ensures HandlesOk(Sending(s, i, act))
  {
    HandlesKept(s, Sending(s, i, act), i, 0);
  }

  lemma HandlesWalking(s: State, i: nat, act: Action)
    requires HandlesOk(s) && i < |s.threads| && Ready(s, s.threads[i], act)
    requires act.PassStart? || act.PassVisit? || act.PassRelease? || act.PassEnd?
    ensures HandlesOk(Walking(s, i, act))
  {
    HandlesKept(s, Walking(s, i, act), i, if act.PassVisit? then act.id else 0);
  }

  lemma HandlesPolling(s: State, i: nat, act: Action)
    requires HandlesOk(s) && i < |s.threads| && Ready(s, s.threads[i], act)
    requires act.Poll? || act.PollRelease?
    ensures HandlesOk(Polling(s, i, act))
  {
    HandlesKept(s, Polling(s, i, act), i, if act.Poll? then act.id else 0);
  }

  lemma HandlesMaking(s: State, i: nat, act: Action)
    requires HandlesOk(s) && i < |s.threads| && Ready(s, s.threads[i], act)
    requires act.MakeQueue? || act.Publish? || act.Record?
    ensures HandlesOk(Making(s, i, act))
  {
    HandlesKept(s, Making(s, i, act), i, 0);
  }

  lemma HandlesOther(s: State, i: nat, act: Action)
    requires HandlesOk(s) && Enabled(s, Step(i, act))
    requires !(act.RecvTry? || act.RecvRelease? || act.RecvInsert?)
    ensures HandlesOk(Apply(s, Step(i, act)))
  {
    if act.SendCharge? || act.SendPush? {
      HandlesSending(s, i, act);
    } else if act.Poll? || act.PollRelease? {
      HandlesPolling(s, i, act);
    } else if act.MakeQueue? || act.Publish? || act.Record? {
      HandlesMaking(s, i, act);
    } else {
      HandlesWalking(s, i, act);
    }
  }

  lemma HandlesStep(s: State, e: Event)
    requires HandlesOk(s) && Enabled(s, e)
    ensures HandlesOk(Apply(s, e))
  {
    if !e.Step? {
      HandlesKept(s, Apply(s, e), |s.threads|, if e.Drop? then e.id else 0);
    } else if e.act.RecvTry? || e.act.RecvRelease? || e.act.RecvInsert? {
      HandlesTaking(s, e.i, e.act);
    } else {
      HandlesOther(s, e.i, e.act);
    }
  }

  lemma {:induction false} HandlesAlways(n: nat, es: seq<Event>)
    requires IsRun(n, es)
    ensures HandlesOk(After(n, es))
  {
    if es != [] {
      HandlesAlways(n, es[..|es| - 1]);
      HandlesStep(After(n, es[..|es| - 1]), es[|es| - 1]);
    }
  }

  predicate Polled(s: State, id: OpId) {
    id in s.ops && s.ops[id].state.Waiting? && s.ops[id].state.polled
  }

  /** No polled receive is stranded. */
  ghost predicate PolledOk(s: State) {
    forall id, q | Polled(s, id) :: !Stranded(s, id, q)
  }

  /** An operation that waits in both states waited on the same queue. */
  lemma WaitedBefore(s: State, r: State, id: OpId, q: Qid)
    requires HandlesOk(s) && KernelOk(s) && WaitsOn(r, id, q)
    requires id in s.ops && s.ops[id].state.Waiting? && s.ops[id].state.handle == r.ops[id].state.handle
    requires forall l | l in s.kernel.handles :: l in r.kernel.handles && r.kernel.handles[l] == s.kernel.handles[l]
    ensures WaitsOn(s, id, q)
  {
  }

  lemma SameHandlesTaking(s: State, i: nat, act: Action)
    requires Enabled(s, Step(i, act))
    requires act.RecvTry? || act.RecvRelease? || act.RecvInsert? || act.Poll? || act.PollRelease?
    ensures Apply(s, Step(i, act)).kernel.handles == s.kernel.handles
  {
  }

  lemma SameHandlesGiving(s: State, i: nat, act: Action)
    requires Enabled(s, Step(i, act))
    requires act.SendCharge? || act.SendPush? || act.PassStart? || act.PassVisit? || act.PassRelease? || act.PassEnd?
    ensures Apply(s, Step(i, act)).kernel.handles == s.kernel.handles
  {
  }

  lemma HandlesGrow(s: State, e: Event, l: Lid)
    requires Enabled(s, e) && l in s.kernel.handles
    ensures l in Apply(s, e).kernel.handles && Apply(s, e).kernel.handles[l] == s.kernel.handles[l]
  {
    if e.Step? && (e.act.RecvTry? || e.act.RecvRelease? || e.act.RecvInsert? || e.act.Poll? || e.act.PollRelease?) {
      SameHandlesTaking(s, e.i, e.act);
    } else if e.Step? && !e.act.MakeQueue? && !e.act.Publish? && !e.act.Record? {
      SameHandlesGiving(s, e.i, e.act);
    }
  }

  /** Only a poll marks an operation polled. */
  lemma PolledKept(s: State, e: Event, id: OpId)
    requires HandlesOk(s) && Enabled(s, e) && !(e.Step? && e.act.Poll?) && Polled(Apply(s, e), id)
    ensures id in s.ops && Apply(s, e).ops[id] == s.ops[id]
  {
    if e.Step? && e.act.RecvInsert? {
      assert ThreadHandleOk(s, s.threads[e.i]);
    }
  }

  /** A poll that leaves the operation waiting found its queue empty, or polled another one. */
  lemma PolledNow(s: State, i: nat, act: Action, id: OpId, q: Qid)
    requires act.Poll? && i < |s.threads| && Ready(s, s.threads[i], act)
    requires var r := Polling(s, i, act); Polled(r, id) && WaitsOn(r, id, q)
    ensures Polling(s, i, act).kernel.queues[q] == []
            || (Polled(s, id) && Polling(s, i, act).ops[id] == s.ops[id])
  {
  }

  /** An operation that is polled and waits after the event was polled before it, or found its queue empty. */
  lemma PolledSource(s: State, e: Event, id: OpId, q: Qid)
    requires HandlesOk(s) && KernelOk(s) && Enabled(s, e)
    requires Polled(Apply(s, e), id) && WaitsOn(Apply(s, e), id, q)
    ensures (Polled(s, id) && WaitsOn(s, id, q)) || Apply(s, e).kernel.queues[q] == []
  {
    var r := Apply(s, e);
    if e.Step? && e.act.Poll? {
      PolledNow(s, e.i, e.act, id, q);
    } else {
      PolledKept(s, e, id);
    }
    if r.kernel.queues[q] != [] {
      forall l | l in s.kernel.handles ensures l in r.kernel.handles && r.kernel.handles[l] == s.kernel.handles[l] {
        HandlesGrow(s, e, l);
      }
      WaitedBefore(s, r, id, q);
    }
  }

  lemma PolledStep(s: State, e: Event)
    requires HandlesOk(s) && KernelOk(s) && PolledOk(s) && Enabled(s, e)
    ensures PolledOk(Apply(s, e))
  {
    var r := Apply(s, e);
    forall id, q | Polled(r, id) ensures !Stranded(r, id, q) {
      if WaitsOn(r, id, q) {
        PolledSource(s, e, id, q);
        if Polled(s, id) && WaitsOn(s, id, q) {
          SafeStep(s, e, id, q);
        }
      }
    }
  }

  lemma {:induction false} PolledAlways(n: nat, es: seq<Event>)
    requires IsRun(n, es)
    ensures PolledOk(After(n, es))
  {
    if es != [] {
      var pre := es[..|es| - 1];
      PolledAlways(n, pre);
      KernelAlways(n, pre);
      HandlesAlways(n, pre);
      PolledStep(After(n, pre), es[|es| - 1]);
    }
  }

  /**
   No stranded receiver: while a polled receive waits on a queue that holds an
   item, some sender has pushed to that queue and its wake pass has still to
   reach the receive.
   */
  lemma NoStrandedReceiver(n: nat, es: seq<Event>, id: OpId, q: Qid)
    requires IsRun(n, es) && Polled(After(n, es), id)
    ensures var s := After(n, es);
            WaitsOn(s, id, q) && s.kernel.queues[q] != [] ==> SomeoneVisits(s.threads, q, id)
  {
    PolledAlways(n, es);
    assert !Stranded(After(n, es), id, q);
  }
}
