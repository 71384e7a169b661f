/**
 The executor's code as one thread executes it: the run queue, the yield queue
 and the task table updated in place. Every method is a run of the transition
 system, so what holds of all runs holds of the code.
 */
module ExecutorCode {
  import opened Common
  import opened Executor

  ghost predicate Stepped(s: State, e: Event, r: State) {
    Enabled(s, e) && Apply(s, e) == r
  }

  ghost predicate Chain(ss: seq<State>, es: seq<Event>) {
    && |ss| == |es| + 1
    && forall i {:trigger Stepped(ss[i], es[i], ss[i + 1])} | 0 <= i < |es| :: Stepped(ss[i], es[i], ss[i + 1])
  }

  /** The events can happen one after another from `s` and lead to `r`. */
  ghost predicate Leads(s: State, es: seq<Event>, r: State) {
    exists ss :: Chain(ss, es) && ss[0] == s && ss[|es|] == r
  }

  predicate IsWake(e: Event) {
    e.Step? && e.act.Wake?
  }

  /** How many of the events are wakes by a waker. */
  function Wakes(es: seq<Event>): nat {
    if es == [] then 0 else Wakes(es[..|es| - 1]) + if IsWake(es[|es| - 1]) then 1 else 0
  }

  lemma {:induction false} WakesJoin(es: seq<Event>, fs: seq<Event>)
    ensures Wakes(es + fs) == Wakes(es) + Wakes(fs)
    decreases |fs|
  {
    if fs == [] {
      assert es + fs == es;
    } else {
      var n := |fs| - 1;
      WakesJoin(es, fs[..n]);
      assert (es + fs)[..|es + fs| - 1] == es + fs[..n];
    }
  }

  lemma LeadsJoin(s: State, es: seq<Event>, m: State, fs: seq<Event>, r: State)
    requires Leads(s, es, m) && Leads(m, fs, r)
    ensures Leads(s, es + fs, r) && Wakes(es + fs) == Wakes(es) + Wakes(fs)
  {
    WakesJoin(es, fs);
    var ss :| Chain(ss, es) && ss[0] == s && ss[|es|] == m;
    var tt :| Chain(tt, fs) && tt[0] == m && tt[|fs|] == r;
    ChainJoin(ss, es, tt, fs);
  }

  lemma ChainJoin(ss: seq<State>, es: seq<Event>, tt: seq<State>, fs: seq<Event>)
    requires Chain(ss, es) && Chain(tt, fs) && ss[|es|] == tt[0]
    ensures var all := ss + tt[1..]; Chain(all, es + fs) && all[0] == ss[0] && all[|es + fs|] == tt[|fs|]
  {
    var all := ss + tt[1..];
    forall i | 0 <= i < |es + fs| ensures Stepped(all[i], (es + fs)[i], all[i + 1]) {
      if i < |es| {
        assert Stepped(ss[i], es[i], ss[i + 1]);
      } else {
        var j := i - |es|;
        assert Stepped(tt[j], fs[j], tt[j + 1]);
        assert all[i] == tt[j] && all[i + 1] == tt[j + 1];
      }
    }
    assert Chain(all, es + fs);
  }

  lemma LeadsNone(s: State)
    ensures Leads(s, [], s)
  {
    assert Chain([s], []);
  }

  lemma LeadsOne(s: State, e: Event, r: State)
    requires Stepped(s, e, r)
    ensures Leads(s, [e], r) && Wakes([e]) == if IsWake(e) then 1 else 0
  {
    assert Chain([s, r], [e]);
  }

  lemma LeadsTwo(s: State, e: Event, m: State, f: Event, r: State)
    requires Stepped(s, e, m) && Stepped(m, f, r)
    ensures Leads(s, [e, f], r) && Wakes([e, f]) == Wakes([e]) + Wakes([f])
  {
    LeadsOne(s, e, m);
    LeadsOne(m, f, r);
    LeadsJoin(s, [e], m, [f], r);
    assert [e] + [f] == [e, f];
  }

  /** `enqueue_and_notify` by the only thread: nobody sleeps, so the notify wakes nobody. */
  const ENQUEUE := [Step(0, DoPush), Step(0, DoBump), Step(0, DoNotify(1))]

  lemma PushStep(s: State)
    requires |s.threads| == 1 && s.threads[0].duty.Push?
    ensures Stepped(s, Step(0, DoPush),
                    s.(queue := s.queue + [s.threads[0].duty.task], threads := [s.threads[0].(duty := Bump(false))]))
  {
    assert s.threads[0 := s.threads[0].(duty := Bump(false))] == [s.threads[0].(duty := Bump(false))];
  }

  lemma BumpStep(s: State)
    requires |s.threads| == 1 && s.threads[0].duty.Bump?
    ensures var next := if s.threads[0].duty.last then Count else Notify(1);
            Stepped(s, Step(0, DoBump), s.(wakeWord := s.wakeWord + 1, threads := [s.threads[0].(duty := next)]))
  {
    var next := if s.threads[0].duty.last then Count else Notify(1);
    assert s.threads[0 := s.threads[0].(duty := next)] == [s.threads[0].(duty := next)];
  }

  lemma NotifyStep(s: State)
    requires |s.threads| == 1 && s.threads[0].duty == Notify(1) && !s.threads[0].pc.Sleeping?
    ensures Stepped(s, Step(0, DoNotify(1)), s.(threads := [s.threads[0].(duty := Clear)]))
  {
    assert s.threads[0 := s.threads[0].(duty := Clear)] == [s.threads[0].(duty := Clear)];
  }

  lemma EnqueueRun(s: State)
    requires |s.threads| == 1 && s.threads[0].duty.Push? && !s.threads[0].pc.Sleeping?
    ensures Leads(s, ENQUEUE, Settle(s, s.threads[0].duty)) && Wakes(ENQUEUE) == 0
  {
    var th := s.threads[0];
    var s1 := s.(queue := s.queue + [th.duty.task], threads := [th.(duty := Bump(false))]);
    var s2 := s1.(wakeWord := s.wakeWord + 1, threads := [th.(duty := Notify(1))]);
    PushStep(s);
    BumpStep(s1);
    NotifyStep(s2);
    LeadsTwo(s, Step(0, DoPush), s1, Step(0, DoBump), s2);
    LeadsOne(s2, Step(0, DoNotify(1)), Settle(s, th.duty));
    LeadsJoin(s, [Step(0, DoPush), Step(0, DoBump)], s2, [Step(0, DoNotify(1))], Settle(s, th.duty));
    assert ENQUEUE == [Step(0, DoPush), Step(0, DoBump)] + [Step(0, DoNotify(1))];
  }

  /** One event and, if it leaves a push owed, the enqueue that pays it. */
  function Paid(e: Event, duty: Duty): seq<Event> {
    if duty.Push? then [e] + ENQUEUE else [e]
  }

  /** The state after the owed push of `duty` is done. */
  function Settle(s: State, duty: Duty): State
    requires |s.threads| == 1
  {
    if duty.Push? then
      s.(queue := s.queue + [duty.task], wakeWord := s.wakeWord + 1, threads := [s.threads[0].(duty := Clear)])
    else s
  }

  lemma PaidRun(s: State, e: Event, m: State)
    requires Stepped(s, e, m) && |m.threads| == 1 && !m.threads[0].pc.Sleeping?
    ensures Leads(s, Paid(e, m.threads[0].duty), Settle(m, m.threads[0].duty))
    ensures Wakes(Paid(e, m.threads[0].duty)) == if IsWake(e) then 1 else 0
  {
    LeadsOne(s, e, m);
    if m.threads[0].duty.Push? {
      EnqueueRun(m);
      LeadsJoin(s, [e], m, ENQUEUE, Settle(m, m.threads[0].duty));
    }
  }

  /** The first queue entry that can be claimed, or the length of the queue. */
  function FirstClaimable(tasks: map<TaskId, Slot>, queue: seq<TaskId>): nat {
    if queue == [] || Claimable(tasks, queue[0]) then 0 else 1 + FirstClaimable(tasks, queue[1..])
  }

  const POP := [Step(0, Pop), Step(0, Claim)]

  /** Popping an entry and trying to claim it, from the only thread. */
  lemma PopRun(s0: State, es: seq<Event>, s: State)
    requires Leads(s0, es, s) && |s.threads| == 1 && s.queue != []
    requires s.threads[0].pc == Popping && s.threads[0].duty == Clear
    ensures Leads(s0, es + POP, AfterPop(s)) && Wakes(es + POP) == Wakes(es)
  {
    var m := s.(queue := s.queue[1..], threads := [s.threads[0].(pc := Popped(s.queue[0]))]);
    PopStep(s);
    ClaimStep(s, m);
    LeadsTwo(s, Step(0, Pop), m, Step(0, Claim), AfterPop(s));
    LeadsJoin(s0, es, s, POP, AfterPop(s));
  }

  lemma PopStep(s: State)
    requires |s.threads| == 1 && s.queue != [] && s.threads[0].pc == Popping && s.threads[0].duty == Clear
    ensures Stepped(s, Step(0, Pop), s.(queue := s.queue[1..], threads := [s.threads[0].(pc := Popped(s.queue[0]))]))
  {
  }

  lemma ClaimStep(s: State, m: State)
    requires |s.threads| == 1 && s.queue != [] && s.threads[0].pc == Popping && s.threads[0].duty == Clear
    requires m == s.(queue := s.queue[1..], threads := [s.threads[0].(pc := Popped(s.queue[0]))])
    ensures Stepped(m, Step(0, Claim), AfterPop(s))
  {
    assert m.threads[0 := s.threads[0]] == s.threads;
  }

  function AfterPop(s: State): State
    requires |s.threads| == 1 && s.queue != []
  {
    var t := s.queue[0];
    if Claimable(s.tasks, t) then
      s.(queue := s.queue[1..], tasks := ClaimSlot(s.tasks, t, 0),
         threads := [s.threads[0].(pc := Claimed(t, s.tasks[t].wakes))])
    else s.(queue := s.queue[1..])
  }

  lemma PopNoneRun(s0: State, es: seq<Event>, s: State)
    requires Leads(s0, es, s) && |s.threads| == 1 && s.queue == []
    requires s.threads[0].pc == Popping && s.threads[0].duty == Clear
    ensures Leads(s0, es + [Step(0, Pop)], s.(threads := [s.threads[0].(pc := CheckQueue)]))
    ensures Wakes(es + [Step(0, Pop)]) == Wakes(es)
  {
    var r := s.(threads := [s.threads[0].(pc := CheckQueue)]);
    LeadsOne(s, Step(0, Pop), r);
    LeadsJoin(s0, es, s, [Step(0, Pop)], r);
  }

  /** What `apply_yield_queue` does to the table. */
  function YieldAll(tasks: map<TaskId, Slot>, ids: seq<TaskId>): map<TaskId, Slot> {
    if ids == [] then tasks else YieldAll(YieldSlot(tasks, ids[0]), ids[1..])
  }

  lemma DrainYieldsRun(s: State)
    requires |s.threads| == 1 && s.threads[0].pc == TakeYields && s.threads[0].duty == Clear
    ensures Wakes([Step(0, DrainYields)]) == 0
    ensures var ids := s.rest.yieldQueue;
            Leads(s, [Step(0, DrainYields)],
                  s.(rest := s.rest.(yieldQueue := []), past := s.past.(applied := Elements(ids)),
                     threads := [s.threads[0].(pc := if ids == [] then Stalled else Yielding(ids))]))
  {
    var ids := s.rest.yieldQueue;
    LeadsOne(s, Step(0, DrainYields),
             s.(rest := s.rest.(yieldQueue := []), past := s.past.(applied := Elements(ids)),
                threads := [s.threads[0].(pc := if ids == [] then Stalled else Yielding(ids))]));
  }

  /** What `apply_yield_queue` pushes, in order. */
  function YieldPushes(tasks: map<TaskId, Slot>, ids: seq<TaskId>): seq<TaskId> {
    if ids == [] then []
    else
      (if YieldDuty(tasks, ids[0]).Push? then [ids[0]] else [])
      + YieldPushes(YieldSlot(tasks, ids[0]), ids[1..])
  }

  lemma PushesStep(queue: seq<TaskId>, tasks: map<TaskId, Slot>, ids: seq<TaskId>)
    requires ids != []
    ensures queue + YieldPushes(tasks, ids) ==
            (queue + if YieldDuty(tasks, ids[0]).Push? then [ids[0]] else [])
            + YieldPushes(YieldSlot(tasks, ids[0]), ids[1..])
  {
  }

  /** The only thread moves to `pc` owing `duty`, and the table becomes `tasks`. */
  function Moved(s: State, tasks: map<TaskId, Slot>, pc: Pc, duty: Duty): State
    requires |s.threads| == 1
  {
    s.(tasks := tasks, threads := [s.threads[0].(pc := pc, duty := duty)])
  }

  lemma WakeRun(s: State, t: TaskId)
    requires |s.threads| == 1 && s.threads[0].duty == Clear && UserCode(s.threads[0].pc)
    ensures var duty := WakeDuty(s.tasks, t);
            && Leads(s, Paid(Step(0, Wake(t)), duty),
                     Settle(Moved(s, WakeSlot(s.tasks, t), s.threads[0].pc, duty), duty))
            && Wakes(Paid(Step(0, Wake(t)), duty)) == 1
  {
    var duty := WakeDuty(s.tasks, t);
    PaidRun(s, Step(0, Wake(t)), Moved(s, WakeSlot(s.tasks, t), s.threads[0].pc, duty));
  }

  lemma YieldRun(s: State)
    requires |s.threads| == 1 && s.threads[0].duty == Clear
    requires s.threads[0].pc.Yielding? && s.threads[0].pc.left != []
    ensures var ids := s.threads[0].pc.left;
            var duty := YieldDuty(s.tasks, ids[0]);
            && Leads(s, Paid(Step(0, ApplyYield), duty),
                     Settle(Moved(s, YieldSlot(s.tasks, ids[0]), Yielding(ids[1..]), duty), duty))
            && Wakes(Paid(Step(0, ApplyYield), duty)) == 0
  {
    var ids := s.threads[0].pc.left;
    var duty := YieldDuty(s.tasks, ids[0]);
    PaidRun(s, Step(0, ApplyYield), Moved(s, YieldSlot(s.tasks, ids[0]), Yielding(ids[1..]), duty));
  }

  lemma SpawnRun(s: State)
    requires |s.threads| == 1 && s.threads[0].duty == Clear && UserCode(s.threads[0].pc) && s.nextId < TWO_32
    ensures var duty := Push(s.nextId);
            var tasks := s.tasks[s.nextId := Slot(Queued, 0, 0, 0, true)];
            && Leads(s, Paid(Step(0, Spawn(false)), duty),
                     Settle(Moved(s, tasks, s.threads[0].pc, duty).(nextId := s.nextId + 1), duty))
            && Wakes(Paid(Step(0, Spawn(false)), duty)) == 0
  {
    var duty, tasks := Push(s.nextId), s.tasks[s.nextId := Slot(Queued, 0, 0, 0, true)];
    PaidRun(s, Step(0, Spawn(false)), Moved(s, tasks, s.threads[0].pc, duty).(nextId := s.nextId + 1));
  }

  /** The table after a poll of `t` has finished. */
  function Finished(tasks: map<TaskId, Slot>, t: TaskId, baseline: nat, ready: bool): map<TaskId, Slot> {
    if t !in tasks then tasks
    else if ready then tasks - {t}
    else tasks[t := ParkSlot(tasks[t], baseline)]
  }

  /** A pending poll whose word moved owes an enqueue. */
  function FinishDuty(tasks: map<TaskId, Slot>, t: TaskId, baseline: nat, ready: bool): Duty {
    if t in tasks && !ready && WordMoved(tasks[t], baseline) then Push(t) else Clear
  }

  function FinishEvent(ready: bool): Event {
    Step(0, if ready then FinishReady else FinishPending)
  }

  lemma FinishRun(s: State, t: TaskId, baseline: nat, ready: bool)
    requires s.threads == [Thread(Coop, InPoll(t, baseline), Clear)] && (ready && t == s.rest.owner ==> s.rest.done)
    ensures var duty := FinishDuty(s.tasks, t, baseline, ready);
            && Leads(s, Paid(FinishEvent(ready), duty),
                     Settle(Moved(s, Finished(s.tasks, t, baseline, ready), Popping, duty), duty))
            && Wakes(Paid(FinishEvent(ready), duty)) == 0
  {
    var duty := FinishDuty(s.tasks, t, baseline, ready);
    assert t !in s.tasks ==> s.tasks - {t} == s.tasks;
    PaidRun(s, FinishEvent(ready), Moved(s, Finished(s.tasks, t, baseline, ready), Popping, duty));
  }

  class GuestExecutor {
    var tasks: map<TaskId, Slot>
    var runQueue: seq<TaskId>
    var wakeWord: nat
    var nextTaskId: nat
    var rest: Rest
    ghost var past: History

    /** The state the system is in while the thread is at `pc`, owing `duty`. */
    ghost function Owing(pc: Pc, duty: Duty): State
      reads this
    {
      var mode := if pc.Outside? then Guest else Coop;
      State(tasks, runQueue, wakeWord, nextTaskId, [Thread(mode, pc, duty)], rest, past)
    }

    ghost function View(pc: Pc): State
      reads this
    {
      Owing(pc, Clear)
    }

    constructor ()
      ensures View(Outside) == Init(1)
    {
      tasks, runQueue, wakeWord, nextTaskId := map[], [], 0, 1;
      rest := Rest([], [], None, 0, false, false);
      past := History(false, false, {}, {}, []);
    }

    method EnqueueAndNotify(t: TaskId, ghost pc: Pc)
      requires !pc.Sleeping?
      modifies this
      ensures Leads(old(Owing(pc, Push(t))), ENQUEUE, View(pc))
      ensures runQueue == old(runQueue) + [t] && wakeWord == old(wakeWord) + 1
      ensures tasks == old(tasks) && nextTaskId == old(nextTaskId) && rest == old(rest) && past == old(past)
    {
      EnqueueRun(Owing(pc, Push(t)));
      runQueue := runQueue + [t];
      wakeWord := wakeWord + 1;
    }

    /** `wake_task`: bumps a live task's word and enqueues it if it was parked. */
    method Rouse(t: TaskId)
      modifies this
      ensures tasks == WakeSlot(old(tasks), t)
      ensures runQueue == if WakeDuty(old(tasks), t).Push? then old(runQueue) + [t] else old(runQueue)
      ensures wakeWord == if WakeDuty(old(tasks), t).Push? then old(wakeWord) + 1 else old(wakeWord)
      ensures nextTaskId == old(nextTaskId) && rest == old(rest) && past == old(past)
    {
      if t == 0 || t !in tasks {
        return;
      }
      var slot := tasks[t];
      match slot.state
      case Parked =>
        tasks := tasks[t := slot.(state := Queued, wakes := slot.wakes + 1)];
        EnqueueAndNotify(t, Outside);
      case Queued =>
        tasks := tasks[t := slot.(wakes := slot.wakes + 1)];
      case Polling =>
        tasks := tasks[t := slot.(wakes := slot.wakes + 1)];
    }

    /** `wake_task`, called from outside or from inside a poll. */
    method WakeTask(t: TaskId, ghost pc: Pc) returns (ghost es: seq<Event>)
      requires UserCode(pc)
      modifies this
      ensures Leads(old(View(pc)), es, View(pc)) && Wakes(es) == 1
      ensures tasks == WakeSlot(old(tasks), t)
      ensures runQueue == if WakeDuty(old(tasks), t).Push? then old(runQueue) + [t] else old(runQueue)
      ensures nextTaskId == old(nextTaskId) && rest == old(rest) && past == old(past)
    {
      WakeRun(View(pc), t);
      es := Paid(Step(0, Wake(t)), WakeDuty(tasks, t));
      Rouse(t);
    }

    /**
     `pop_runnable`: claims the first queued entry and drops the stale ones
     before it.
     */
    method PopRunnable() returns (r: Option<(TaskId, nat)>, ghost es: seq<Event>)
      modifies this
      ensures var k := FirstClaimable(old(tasks), old(runQueue));
              k <= |old(runQueue)|
              && if k < |old(runQueue)| then
                   var t := old(runQueue)[k];
                   && Claimable(old(tasks), t) && r == Some((t, old(tasks)[t].wakes))
                   && tasks == ClaimSlot(old(tasks), t, 0) && runQueue == old(runQueue)[k + 1..]
                   && Leads(old(View(Popping)), es, View(Claimed(t, old(tasks)[t].wakes)))
                 else
                   && r.None? && tasks == old(tasks) && runQueue == []
                   && Leads(old(View(Popping)), es, View(CheckQueue))
      ensures wakeWord == old(wakeWord) && nextTaskId == old(nextTaskId) && rest == old(rest) && past == old(past)
      ensures Wakes(es) == 0
    {
      ghost var s0, q0, k := View(Popping), runQueue, 0;
      LeadsNone(s0);
      es := [];
      while runQueue != []
        invariant k <= |q0| && runQueue == q0[k..]
        invariant tasks == old(tasks) && wakeWord == old(wakeWord) && nextTaskId == old(nextTaskId)
        invariant rest == old(rest) && past == old(past)
        invariant FirstClaimable(tasks, q0) == k + FirstClaimable(tasks, q0[k..])
        invariant Leads(s0, es, View(Popping)) && Wakes(es) == 0
        decreases |runQueue|
      {
        var t := runQueue[0];
        PopRun(s0, es, View(Popping));
        es := es + POP;
        runQueue := runQueue[1..];
        k := k + 1;
        if t in tasks && tasks[t].state == Queued {
          var observed := tasks[t].wakes;
          tasks := tasks[t := tasks[t].(state := Polling, claimedAt := observed, holder := 0)];
          return Some((t, observed)), es;
        }
      }
      PopNoneRun(s0, es, View(Popping));
      es := es + [Step(0, Pop)];
      r := None;
    }

    /** The end of `poll_task`: remove a finished task, or park it and re-check its word. */
    method FinishPoll(t: TaskId, baseline: nat, ready: bool) returns (ghost es: seq<Event>)
      requires ready && t == rest.owner ==> rest.done
      modifies this
      ensures Leads(old(View(InPoll(t, baseline))), es, View(Popping)) && Wakes(es) == 0
      ensures tasks == Finished(old(tasks), t, baseline, ready)
      ensures runQueue == if FinishDuty(old(tasks), t, baseline, ready).Push? then old(runQueue) + [t]
                          else old(runQueue)
      ensures nextTaskId == old(nextTaskId) && rest == old(rest) && past == old(past)
    {
      FinishRun(View(InPoll(t, baseline)), t, baseline, ready);
      es := Paid(FinishEvent(ready), FinishDuty(tasks, t, baseline, ready));
      if t !in tasks {
        return;
      }
      if ready {
        tasks := tasks - {t};
      } else {
        var slot := tasks[t].(state := Parked, future := true);
        if slot.wakes % TWO_32 != baseline % TWO_32 {
          tasks := tasks[t := slot.(state := Queued)];
          EnqueueAndNotify(t, Popping);
        } else {
          tasks := tasks[t := slot];
        }
      }
    }

    /** `apply_yield_queue`. */
    method ApplyYieldQueue() returns (applied: bool, ghost es: seq<Event>)
      modifies this
      ensures applied <==> old(rest.yieldQueue) != []
      ensures Leads(old(View(TakeYields)), es, View(if applied then Yielding([]) else Stalled)) && Wakes(es) == 0
      ensures tasks == YieldAll(old(tasks), old(rest.yieldQueue))
      ensures runQueue == old(runQueue) + YieldPushes(old(tasks), old(rest.yieldQueue))
      ensures rest == old(rest).(yieldQueue := []) && nextTaskId == old(nextTaskId)
    {
      var ids := rest.yieldQueue;
      ghost var s0 := View(TakeYields);
      rest := rest.(yieldQueue := []);
      past := past.(applied := Elements(ids));
      applied := ids != [];
      DrainYieldsRun(s0);
      es := [Step(0, DrainYields)];
      if !applied {
        return;
      }
      es := ApplyYields(ids, s0, es);
    }

    /** The loop of `apply_yield_queue`. */
    method ApplyYields(ids: seq<TaskId>, ghost s0: State, ghost before: seq<Event>) returns (ghost es: seq<Event>)
      requires Leads(s0, before, View(Yielding(ids)))
      modifies this
      ensures Leads(s0, es, View(Yielding([]))) && Wakes(es) == Wakes(before)
      ensures tasks == YieldAll(old(tasks), ids)
      ensures runQueue == old(runQueue) + YieldPushes(old(tasks), ids)
      ensures rest == old(rest) && nextTaskId == old(nextTaskId) && past == old(past)
    {
      var left := ids;
      es := before;
      while left != []
        invariant Leads(s0, es, View(Yielding(left))) && Wakes(es) == Wakes(before)
        invariant YieldAll(tasks, left) == YieldAll(old(tasks), ids)
        invariant runQueue + YieldPushes(tasks, left) == old(runQueue) + YieldPushes(old(tasks), ids)
        invariant rest == old(rest) && nextTaskId == old(nextTaskId) && past == old(past)
        decreases |left|
      {
        PushesStep(runQueue, tasks, left);
        es := ApplyOne(left, s0, es);
        left := left[1..];
      }
    }

    /** One turn of the loop of `apply_yield_queue`. */
    method ApplyOne(ids: seq<TaskId>, ghost s0: State, ghost before: seq<Event>) returns (ghost es: seq<Event>)
      requires ids != [] && Leads(s0, before, View(Yielding(ids)))
      modifies this
      ensures Leads(s0, es, View(Yielding(ids[1..]))) && Wakes(es) == Wakes(before)
      ensures tasks == YieldSlot(old(tasks), ids[0])
      ensures runQueue == old(runQueue) + if YieldDuty(old(tasks), ids[0]).Push? then [ids[0]] else []
      ensures rest == old(rest) && nextTaskId == old(nextTaskId) && past == old(past)
    {
      var t := ids[0];
      ghost var s, e := View(Yielding(ids)), Step(0, ApplyYield);
      ghost var duty := YieldDuty(tasks, t);
      YieldRun(s);
      if t in tasks && tasks[t].state == Parked {
        tasks := tasks[t := tasks[t].(state := Queued)];
        EnqueueAndNotify(t, Yielding(ids[1..]));
      }
      LeadsJoin(s0, before, s, Paid(e, duty), View(Yielding(ids[1..])));
      es := before + Paid(e, duty);
    }

    /** `next_task_id`: never 0, wrapping from the largest 32-bit value to 1. */
    method NextTaskId() returns (id: TaskId)
      requires 0 < nextTaskId < TWO_32
      modifies this`nextTaskId
      ensures id == old(nextTaskId) && 0 < nextTaskId < TWO_32
      ensures nextTaskId == if id + 1 < TWO_32 then id + 1 else 1
    {
      id := nextTaskId;
      nextTaskId := if id + 1 < TWO_32 then id + 1 else 1;
    }

    /** `spawn`: a fresh task enters the table runnable. */
    method SpawnTask(ghost pc: Pc) returns (id: TaskId, ghost es: seq<Event>)
      requires UserCode(pc) && 0 < nextTaskId < TWO_32
      modifies this
      ensures id == old(nextTaskId) && tasks == old(tasks)[id := Slot(Queued, 0, 0, 0, true)]
      ensures runQueue == old(runQueue) + [id] && rest == old(rest) && past == old(past)
      ensures nextTaskId == if id + 1 < TWO_32 then id + 1 else 1
      ensures id + 1 < TWO_32 ==> Leads(old(View(pc)), es, View(pc)) && Wakes(es) == 0
    {
      SpawnRun(View(pc));
      es := Paid(Step(0, Spawn(false)), Push(nextTaskId));
      id := NextTaskId();
      tasks := tasks[id := Slot(Queued, 0, 0, 0, true)];
      EnqueueAndNotify(id, pc);
    }
  }
}
