/**
 The cooperative mode: one thread runs the executor and returns when no
 forward-progress work remains.
 */
module ExecutorCoop {
  import opened Executor
  import opened ExecutorSafety

  /** The pass is still looking for work. */
  predicate Searching(pc: Pc) {
    pc.Top? || pc.DrainStart? || pc.Draining? || pc.Popping? || pc.Popped? || pc.Claimed? || pc.InPoll?
    || pc.CheckQueue?
  }

  /** The yields the thread still has to apply. */
  function Left(pc: Pc): seq<TaskId> {
    if pc.Yielding? then pc.left else []
  }

  /** Queued tasks are exactly the live taken yields, except those still left. */
  ghost predicate Settled(s: State, left: seq<TaskId>) {
    && (forall t | t in s.tasks ::
          && s.tasks[t].state != Polling
          && (s.tasks[t].state == Queued ==> t in s.past.applied)
          && (t in s.past.applied ==> s.tasks[t].state == Queued || t in left))
    && (forall t | t in left :: t in s.past.applied)
  }

  ghost predicate CoopOk(s: State) {
    |s.threads| == 1
    && (s.threads[0].mode == Coop ==>
          var pc := s.threads[0].pc;
          || pc.Outside?
          || (Searching(pc) && s.past.passYields <= Elements(s.rest.yieldQueue))
          || (&& (pc.CheckMail? || pc.TakeYields?)
              && s.past.passYields <= Elements(s.rest.yieldQueue)
              && s.queue == [] && s.threads[0].duty.Clear?
              && (pc.TakeYields? ==> s.rest.mail == s.past.sinceCheck))
          || (&& (pc.Yielding? || pc.Stalled? || pc.Returned?)
              && s.past.passYields <= s.past.applied
              && (pc.Yielding? || s.threads[0].duty.Clear?)
              && s.rest.mail == s.past.sinceCheck
              && Settled(s, Left(pc))))
  }

  /** With an empty queue and nothing in hand every live task is parked. */
  lemma AllParked(s: State)
    requires SlotsOk(s) && (forall t :: TokenOk(s, t))
    requires |s.threads| == 1 && s.queue == [] && s.threads[0].duty.Clear?
    requires !Holding(s.threads[0].pc) && !s.threads[0].pc.Popped?
    ensures forall t | t in s.tasks :: s.tasks[t].state == Parked
  {
    forall t | t in s.tasks ensures s.tasks[t].state == Parked {
      assert SlotOk(s, t) && TokenOk(s, t);
      CarriedNone(s.threads, t);
    }
  }

  lemma CoopDuty(s: State, act: Action)
    requires CoopOk(s) && Ready(s, s.threads[0], act) && GroupOf(act) == OfDuty
    ensures CoopOk(MoveDuty(s, 0, act))
  {
    var r := MoveDuty(s, 0, act);
    if act.DoNotify? && act.sleeper < 1 {
      assert s.threads[0].pc.Sleeping?;
    }
  }

  lemma CoopWaking(s: State, act: Action)
    requires CoopOk(s) && s.threads[0].duty.Clear?
    requires ReadyAt(s, s.threads[0].pc, act) && GroupOf(act) == OfWaking
    ensures CoopOk(MoveWaking(s, 0, act))
  {
    var pc := s.threads[0].pc;
    if act.ApplyYield? && s.threads[0].mode == Coop {
      assert pc.left[0] in s.past.applied;
      assert forall t | t in pc.left :: t == pc.left[0] || t in pc.left[1..];
    }
  }

  lemma CoopPolling(s: State, act: Action)
    requires CoopOk(s) && s.threads[0].duty.Clear?
    requires ReadyAt(s, s.threads[0].pc, act) && GroupOf(act) == OfPolling
    ensures CoopOk(MovePolling(s, 0, act))
  {
  }

  lemma CoopUser(s: State, act: Action)
    requires CoopOk(s) && s.threads[0].duty.Clear?
    requires ReadyAt(s, s.threads[0].pc, act) && GroupOf(act) == OfUser
    ensures CoopOk(MoveUser(s, 0, act))
  {
    var r := MoveUser(s, 0, act);
    if act.YieldNow? {
      assert Elements(r.rest.yieldQueue) == Elements(s.rest.yieldQueue) + {s.threads[0].pc.task};
    }
  }

  lemma CoopPass(s: State, act: Action)
    requires CoopOk(s) && s.threads[0].duty.Clear?
    requires SlotsOk(s) && (forall t :: TokenOk(s, t))
    requires ReadyAt(s, s.threads[0].pc, act) && GroupOf(act) == OfPass
    ensures CoopOk(MovePass(s, 0, act))
  {
    if act.DrainYields? && s.threads[0].mode == Coop {
      AllParked(s);
    }
  }

  lemma CoopLook(s: State, act: Action)
    requires CoopOk(s) && s.threads[0].duty.Clear?
    requires ReadyAt(s, s.threads[0].pc, act) && GroupOf(act) == OfLook
    ensures CoopOk(MoveLook(s, 0, act))
  {
  }

  lemma CoopStep(s: State, e: Event)
    requires CoopOk(s) && SlotsOk(s) && (forall t :: TokenOk(s, t)) && Enabled(s, e)
    ensures CoopOk(Apply(s, e))
  {
    if e.Step? {
      match GroupOf(e.act)
      case OfDuty => CoopDuty(s, e.act);
      case OfWaking => CoopWaking(s, e.act);
      case OfPolling => CoopPolling(s, e.act);
      case OfUser => CoopUser(s, e.act);
      case OfPass => CoopPass(s, e.act);
      case OfLook => CoopLook(s, e.act);
    }
  }

  lemma {:induction false} CoopAlways(es: seq<Event>)
    requires IsRun(1, es)
    ensures CoopOk(After(1, es))
  {
    if es != [] {
      var p := es[..|es| - 1];
      CoopAlways(p);
      SlotsAlways(1, p);
      forall t ensures TokenOk(After(1, p), t) {
        TokensAlways(1, p, t);
      }
      CoopStep(After(1, p), es[|es| - 1]);
    }
  }

  /**
   The mailbox holds just the host wakes that arrived after the last check; a
   live task is parked with no undelivered wake, or it is a yielded task sitting
   in the run queue; every live task that yielded during the pass is queued.
   */
  predicate AtRest(s: State, t: TaskId) {
    && s.rest.mail == s.past.sinceCheck
    && (t in s.tasks ==>
          || (s.tasks[t].state == Parked && s.tasks[t].wakes == s.tasks[t].claimedAt)
          || (s.tasks[t].state == Queued && t in s.queue && t in s.past.applied))
    && (t in s.tasks && t in s.past.passYields ==> t in s.queue)
  }

  /** When the cooperative `worker_loop` returns, everything is at rest. */
  lemma CooperativeQuiescence(es: seq<Event>, t: TaskId)
    requires IsRun(1, es)
    requires After(1, es).threads[0].mode == Coop && After(1, es).threads[0].pc.Returned?
    ensures AtRest(After(1, es), t)
  {
    CoopAlways(es);
    SlotsAlways(1, es);
    TokensAlways(1, es, t);
    Quiescent(After(1, es), t);
  }

  lemma Quiescent(s: State, t: TaskId)
    requires CoopOk(s) && SlotsOk(s) && TokenOk(s, t)
    requires s.threads[0].mode == Coop && s.threads[0].pc.Returned?
    ensures AtRest(s, t)
  {
    CarriedNone(s.threads, t);
    if t in s.tasks {
      assert SlotOk(s, t);
    }
  }
}
