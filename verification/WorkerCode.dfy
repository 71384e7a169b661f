/**
 `worker_loop` as the only worker of a cooperative guest executes it. What the
 futures do when they are polled, and which wakes the host enqueues meanwhile,
 is a script. The whole loop is a run of the transition system.
 */
module WorkerCode {
  import opened Common
  import opened Executor
  import opened ExecutorSafety
  import opened ExecutorCode
  import opened ExecutorCoop

  /** Something that happens while a future is being polled. */
  datatype Deed = WakeOther(t: TaskId) | SpawnNew | Yield | HostEnqueues(t: TaskId)

  /** One poll: what happens during it, and whether the future is done. */
  datatype Turn = Turn(deeds: seq<Deed>, ready: bool)

  /** A future that only waits. */
  const IDLE := Turn([], false)

  function DeedCount(script: seq<Turn>): nat {
    if script == [] then 0 else |script[0].deeds| + DeedCount(script[1..])
  }

  // ---------------------------------------------------------------------
  // Single events of the only thread
  // ---------------------------------------------------------------------

  ghost predicate Alone(s: State, pc: Pc) {
    s.threads == [Thread(Coop, pc, Clear)]
  }

  function Now(s: State, pc: Pc): State {
    s.(threads := [Thread(Coop, pc, Clear)])
  }

  lemma ExitRun(s: State)
    requires Alone(s, Top)
    ensures Wakes([Step(0, CheckExit)]) == 0
    ensures Leads(s, [Step(0, CheckExit)], Now(s, DrainStart))
  {
    LeadsOne(s, Step(0, CheckExit), Now(s, DrainStart));
  }

  lemma LookQueueRun(s: State)
    requires Alone(s, CheckQueue) && s.queue == []
    ensures Wakes([Step(0, LookQueue)]) == 0
    ensures Leads(s, [Step(0, LookQueue)], Now(s, CheckMail))
  {
    LeadsOne(s, Step(0, LookQueue), Now(s, CheckMail));
  }

  /** Yields applied or not, a cooperative worker returns. */
  function LastAct(yielded: bool): Action {
    if yielded then YieldsDone else Stall
  }

  lemma ReturnRun(s: State, yielded: bool)
    requires Alone(s, if yielded then Yielding([]) else Stalled)
    ensures Wakes([Step(0, LastAct(yielded))]) == 0
    ensures Leads(s, [Step(0, LastAct(yielded))], Now(s, Returned))
  {
    LeadsOne(s, Step(0, LastAct(yielded)), Now(s, Returned));
  }

  lemma {:induction false} YieldKeys(tasks: map<TaskId, Slot>, ids: seq<TaskId>)
    ensures YieldAll(tasks, ids).Keys == tasks.Keys
    decreases |ids|
  {
    if ids != [] {
      YieldKeys(YieldSlot(tasks, ids[0]), ids[1..]);
    }
  }

  lemma DrainBeginRun(s: State)
    requires Alone(s, DrainStart) && s.rest.mailLock.None?
    ensures Wakes([Step(0, DrainBegin)]) == 0
    ensures Leads(s, [Step(0, DrainBegin)],
                  Now(s, Draining(s.rest.mail, |s.rest.mail|)).(rest := s.rest.(mailLock := Some(0))))
  {
    LeadsOne(s, Step(0, DrainBegin),
             Now(s, Draining(s.rest.mail, |s.rest.mail|)).(rest := s.rest.(mailLock := Some(0))));
  }

  lemma DrainWakeRun(s: State, ids: seq<TaskId>, taken: nat)
    requires Alone(s, Draining(ids, taken)) && ids != []
    ensures var duty := WakeDuty(s.tasks, ids[0]);
            && Leads(s, Paid(Step(0, DrainWake), duty),
                     Settle(Moved(s, WakeSlot(s.tasks, ids[0]), Draining(ids[1..], taken), duty), duty))
            && Wakes(Paid(Step(0, DrainWake), duty)) == 0
  {
    var duty := WakeDuty(s.tasks, ids[0]);
    PaidRun(s, Step(0, DrainWake), Moved(s, WakeSlot(s.tasks, ids[0]), Draining(ids[1..], taken), duty));
  }

  lemma DrainEndRun(s: State, taken: nat)
    requires Alone(s, Draining([], taken)) && taken <= |s.rest.mail|
    ensures Wakes([Step(0, DrainEnd)]) == 0
    ensures Leads(s, [Step(0, DrainEnd)],
                  Now(s, Popping).(rest := s.rest.(mail := s.rest.mail[taken..], mailLock := None)))
  {
    LeadsOne(s, Step(0, DrainEnd),
             Now(s, Popping).(rest := s.rest.(mail := s.rest.mail[taken..], mailLock := None)));
  }

  lemma TakeRun(s: State, t: TaskId, baseline: nat)
    requires Alone(s, Claimed(t, baseline)) && t in s.tasks
    ensures Wakes([Step(0, TakeFuture)]) == 0
    ensures Leads(s, [Step(0, TakeFuture)],
                  Now(s, InPoll(t, baseline)).(tasks := s.tasks[t := s.tasks[t].(future := false)]))
  {
    LeadsOne(s, Step(0, TakeFuture),
             Now(s, InPoll(t, baseline)).(tasks := s.tasks[t := s.tasks[t].(future := false)]));
  }

  lemma TakeNoneRun(s: State, t: TaskId, baseline: nat)
    requires Alone(s, Claimed(t, baseline)) && t !in s.tasks
    ensures Wakes([Step(0, TakeFuture)]) == 0
    ensures Leads(s, [Step(0, TakeFuture)], Now(s, Popping))
  {
    LeadsOne(s, Step(0, TakeFuture), Now(s, Popping));
  }

  lemma YieldNowRun(s: State, t: TaskId, baseline: nat)
    requires Alone(s, InPoll(t, baseline))
    ensures Wakes([Step(0, YieldNow)]) == 0
    ensures Leads(s, [Step(0, YieldNow)],
                  s.(rest := s.rest.(yieldQueue := s.rest.yieldQueue + [t]),
                     past := s.past.(passYields := s.past.passYields + {t})))
  {
    LeadsOne(s, Step(0, YieldNow),
             s.(rest := s.rest.(yieldQueue := s.rest.yieldQueue + [t]),
                past := s.past.(passYields := s.past.passYields + {t})));
  }

  function Mailed(s: State, t: TaskId): State {
    s.(rest := s.rest.(mail := s.rest.mail + [t]),
       past := s.past.(sinceCheck := s.past.sinceCheck + [t], unsignalled := true))
  }

  lemma HostWakeRun(s: State, t: TaskId)
    ensures Wakes([HostWake(t)]) == 0
    ensures Leads(s, [HostWake(t)], Mailed(s, t))
  {
    LeadsOne(s, HostWake(t), Mailed(s, t));
  }

  /** The last signal of a cooperative worker, the only active one: it wakes nobody. */
  const LAST_SIGNAL := [Step(0, OwnerDone), Step(0, DoBump)] + [Step(0, DoCount), Step(0, DoNotify(1))]

  lemma CountStep(s: State)
    requires |s.threads| == 1 && s.threads[0].mode == Coop && s.threads[0].duty == Count
    ensures Stepped(s, Step(0, DoCount), s.(threads := [s.threads[0].(duty := Notify(1))]))
  {
    assert Active(s.threads) == 1 + Active(s.threads[1..]) && s.threads[1..] == [];
    assert s.threads[0 := s.threads[0].(duty := Notify(1))] == [s.threads[0].(duty := Notify(1))];
  }

  lemma OwnerDoneRun(s: State, t: TaskId, baseline: nat)
    requires Alone(s, InPoll(t, baseline)) && t == s.rest.owner
    ensures Wakes(LAST_SIGNAL) == 0
    ensures Leads(s, LAST_SIGNAL, s.(rest := s.rest.(done := true), wakeWord := s.wakeWord + 1))
  {
    var th := s.threads[0];
    var s1 := s.(rest := s.rest.(done := true), threads := [th.(duty := Bump(true))]);
    var s2 := s1.(wakeWord := s.wakeWord + 1, threads := [th.(duty := Count)]);
    var s3 := s2.(threads := [th.(duty := Notify(1))]);
    BumpStep(s1);
    CountStep(s2);
    NotifyStep(s3);
    LeadsTwo(s, Step(0, OwnerDone), s1, Step(0, DoBump), s2);
    LeadsTwo(s2, Step(0, DoCount), s3, Step(0, DoNotify(1)), s3.(threads := [th]));
    LeadsJoin(s, [Step(0, OwnerDone), Step(0, DoBump)], s2, [Step(0, DoCount), Step(0, DoNotify(1))],
              s3.(threads := [th]));
  }

  lemma LookMailRun(s: State)
    requires Alone(s, CheckMail)
    ensures Wakes([Step(0, LookMail)]) == 0
    ensures Leads(s, [Step(0, LookMail)],
                  if s.rest.mail != [] then Now(s, Top)
                  else Now(s, TakeYields).(past := s.past.(sinceCheck := [])))
  {
    LeadsOne(s, Step(0, LookMail),
             if s.rest.mail != [] then Now(s, Top) else Now(s, TakeYields).(past := s.past.(sinceCheck := [])));
  }

  // ---------------------------------------------------------------------
  // Chains of events as runs
  // ---------------------------------------------------------------------

  /** Some run of one thread ends in `s`. */
  ghost predicate Reachable(s: State) {
    exists es :: IsRun(1, es) && After(1, es) == s
  }

  /** A thread that has read the wake word and not yet waited on it. */
  predicate Watching(pc: Pc) {
    pc.RecheckQueue? || pc.RecheckMail? || pc.AboutToWait?
  }

  /**
   With one thread: only the task it holds is being polled, that task was woken
   at most `k` times since its claim, and a word that was read has not moved.
   */
  ghost predicate Bounded(s: State, k: nat) {
    && |s.threads| == 1
    && (forall t | t in s.tasks && s.tasks[t].state == Polling ::
          && (s.threads[0].pc.Claimed? || s.threads[0].pc.InPoll?) && s.threads[0].pc.task == t
          && s.tasks[t].wakes <= s.tasks[t].claimedAt + k)
    && (Watching(s.threads[0].pc) ==> s.threads[0].duty.Clear? && s.threads[0].pc.seen == s.wakeWord)
  }

  lemma BoundedDuty(s: State, act: Action, k: nat)
    requires Bounded(s, k) && Ready(s, s.threads[0], act) && GroupOf(act) == OfDuty
    ensures Bounded(MoveDuty(s, 0, act), k)
  {
    if act.DoNotify? && act.sleeper < 1 {
      assert s.threads[0].pc.Sleeping?;
    }
  }

  lemma BoundedWaking(s: State, act: Action, k: nat)
    requires Bounded(s, k) && ReadyAt(s, s.threads[0].pc, act) && GroupOf(act) == OfWaking
    ensures Bounded(MoveWaking(s, 0, act), if act.Wake? then k + 1 else k)
  {
  }

  lemma BoundedPolling(s: State, act: Action, k: nat)
    requires Bounded(s, k) && ReadyAt(s, s.threads[0].pc, act) && GroupOf(act) == OfPolling
    ensures Bounded(MovePolling(s, 0, act), k)
  {
  }

  lemma BoundedUser(s: State, act: Action, k: nat)
    requires Bounded(s, k) && ReadyAt(s, s.threads[0].pc, act) && GroupOf(act) == OfUser
    ensures Bounded(MoveUser(s, 0, act), k)
  {
  }

  lemma BoundedPass(s: State, act: Action, k: nat)
    requires Bounded(s, k) && ReadyAt(s, s.threads[0].pc, act) && GroupOf(act) == OfPass
    ensures Bounded(MovePass(s, 0, act), k)
  {
  }

  lemma BoundedLook(s: State, act: Action, k: nat)
    requires Bounded(s, k) && ReadyAt(s, s.threads[0].pc, act) && GroupOf(act) == OfLook
    ensures Bounded(MoveLook(s, 0, act), k)
  {
  }

  lemma BoundedStep(s: State, e: Event, r: State, k: nat)
    requires Bounded(s, k) && Stepped(s, e, r)
    ensures Bounded(r, k + if IsWake(e) then 1 else 0)
  {
    if e.Step? {
      match GroupOf(e.act)
      case OfDuty => BoundedDuty(s, e.act, k);
      case OfWaking => BoundedWaking(s, e.act, k);
      case OfPolling => BoundedPolling(s, e.act, k);
      case OfUser => BoundedUser(s, e.act, k);
      case OfPass => BoundedPass(s, e.act, k);
      case OfLook => BoundedLook(s, e.act, k);
    }
  }

  lemma RunMore(pre: seq<Event>, e: Event, r: State)
    requires IsRun(1, pre) && NoWrap(After(1, pre)) && Stepped(After(1, pre), e, r)
    ensures IsRun(1, pre + [e]) && After(1, pre + [e]) == r
  {
    var all := pre + [e];
    assert all[..|all| - 1] == pre && all[|all| - 1] == e;
  }

  lemma ReachNext(s: State, e: Event, r: State)
    requires Reachable(s) && NoWrap(s) && Stepped(s, e, r)
    ensures Reachable(r)
  {
    var es :| IsRun(1, es) && After(1, es) == s;
    RunMore(es, e, r);
  }

  /** Fewer than 2^32 wakes wrap no counter, so the chain continues the run. */
  lemma {:induction false} ChainRuns(ss: seq<State>, es: seq<Event>)
    requires Chain(ss, es) && Reachable(ss[0]) && Bounded(ss[0], 0) && Wakes(es) < TWO_32
    ensures Reachable(ss[|es|]) && Bounded(ss[|es|], Wakes(es))
    decreases |es|
  {
    if es != [] {
      var n := |es| - 1;
      ChainInit(ss, es);
      ChainRuns(ss[..n + 1], es[..n]);
      assert Stepped(ss[n], es[n], ss[n + 1]);
      BoundedStep(ss[n], es[n], ss[n + 1], Wakes(es[..n]));
      BoundedUnwrapped(ss[n], Wakes(es[..n]));
      ReachNext(ss[n], es[n], ss[n + 1]);
    }
  }

  lemma BoundedUnwrapped(s: State, k: nat)
    requires Bounded(s, k) && k < TWO_32
    ensures NoWrap(s)
  {
  }

  lemma ChainInit(ss: seq<State>, es: seq<Event>)
    requires Chain(ss, es) && es != []
    ensures Chain(ss[..|es|], es[..|es| - 1])
  {
    forall i | 0 <= i < |es| - 1 ensures Stepped(ss[..|es|][i], es[..|es| - 1][i], ss[..|es|][i + 1]) {
      assert Stepped(ss[i], es[i], ss[i + 1]);
    }
  }

  lemma ReachableSlots(s: State)
    requires Reachable(s)
    ensures |s.threads| == 1 && SlotsOk(s)
  {
    var es :| IsRun(1, es) && After(1, es) == s;
    SlotsAlways(1, es);
  }

  /** A thread that holds no task and watches no word. */
  lemma FreeIsBounded(s: State)
    requires |s.threads| == 1 && SlotsOk(s) && !Holding(s.threads[0].pc) && !Watching(s.threads[0].pc)
    ensures Bounded(s, 0)
  {
    forall t | t in s.tasks ensures s.tasks[t].state != Polling {
      assert SlotOk(s, t);
    }
  }

  /**
   Whatever the futures do, everything is at rest when the loop that began in a
   reachable state has returned.
   */
  lemma LoopLeavesRest(s: State, es: seq<Event>, r: State)
    requires Reachable(s) && Alone(s, Top) && Leads(s, es, r) && Alone(r, Returned) && Wakes(es) < TWO_32
    ensures Reachable(r) && forall t :: AtRest(r, t)
  {
    var ss :| Chain(ss, es) && ss[0] == s && ss[|es|] == r;
    ReachableSlots(s);
    FreeIsBounded(s);
    ChainRuns(ss, es);
    var all :| IsRun(1, all) && After(1, all) == r;
    forall t ensures AtRest(r, t) {
      CooperativeQuiescence(all, t);
    }
  }

  lemma FreeMoves(s: State, e: Event, r: State)
    requires Reachable(s) && Stepped(s, e, r)
    requires |s.threads| == 1 && !Holding(s.threads[0].pc) && !Watching(s.threads[0].pc)
    ensures Reachable(r)
  {
    ReachableSlots(s);
    FreeIsBounded(s);
    BoundedUnwrapped(s, 0);
    ReachNext(s, e, r);
  }

  /** What a caller outside the executor does keeps the state reachable. */
  lemma OutsideRuns(s: State, es: seq<Event>, r: State)
    requires Reachable(s) && s.threads == OUTSIDE && Leads(s, es, r) && Wakes(es) < TWO_32
    ensures Reachable(r)
  {
    var ss :| Chain(ss, es) && ss[0] == s && ss[|es|] == r;
    ReachableSlots(s);
    FreeIsBounded(s);
    ChainRuns(ss, es);
  }

  const OUTSIDE := [Thread(Guest, Outside, Clear)]

  lemma FreshIsReachable()
    ensures Reachable(Init(1))
  {
    var none: seq<Event> := [];
    assert IsRun(1, none) && After(1, none) == Init(1);
  }

  /** From outside the executor its loop can be entered. */
  lemma CanEnter(s: State)
    requires Reachable(s) && s.threads == OUTSIDE
    ensures Reachable(Now(s, Top).(past := s.past.(passYields := {})))
  {
    var r := Now(s, Top).(past := s.past.(passYields := {}));
    assert Stepped(s, Step(0, Enter(Coop)), r);
    FreeMoves(s, Step(0, Enter(Coop)), r);
  }

  /** Once the loop has returned it can be left. */
  lemma CanLeave(s: State)
    requires Reachable(s) && Alone(s, Returned)
    ensures Reachable(s.(threads := OUTSIDE))
  {
    assert Stepped(s, Step(0, Leave), s.(threads := OUTSIDE));
    FreeMoves(s, Step(0, Leave), s.(threads := OUTSIDE));
  }

  // ---------------------------------------------------------------------
  // The loop
  // ---------------------------------------------------------------------

  /** Ids are not used up, no task has id zero, and nobody holds the mailbox. */
  ghost predicate Fit(ex: GuestExecutor, room: nat)
    reads ex
  {
    0 < ex.nextTaskId && ex.nextTaskId + room < TWO_32 && 0 !in ex.tasks && ex.rest.mailLock.None?
  }

  /** Waking drained entries one by one, oldest first. */
  method WakeDrained(ex: GuestExecutor, entries: seq<TaskId>, ghost room: nat) returns (ghost es: seq<Event>)
    requires 0 < ex.nextTaskId && ex.nextTaskId + room < TWO_32 && 0 !in ex.tasks
    modifies ex
    ensures Leads(old(ex.View(Draining(entries, |entries|))), es, ex.View(Draining([], |entries|))) && Wakes(es) == 0
    ensures ex.rest == old(ex.rest) && ex.nextTaskId == old(ex.nextTaskId) && ex.past == old(ex.past)
    ensures ex.tasks.Keys == old(ex.tasks.Keys)
  {
    ghost var s0, taken := ex.View(Draining(entries, |entries|)), |entries|;
    var left := entries;
    es := [];
    LeadsNone(s0);
    while left != []
      invariant Leads(s0, es, ex.View(Draining(left, taken))) && Wakes(es) == 0
      invariant ex.rest == old(ex.rest) && ex.nextTaskId == old(ex.nextTaskId) && ex.past == old(ex.past)
      invariant ex.tasks.Keys == old(ex.tasks.Keys)
      decreases |left|
    {
      ghost var m, duty := ex.View(Draining(left, taken)), WakeDuty(ex.tasks, left[0]);
      DrainWakeRun(m, left, taken);
      ex.Rouse(left[0]);
      left := left[1..];
      LeadsJoin(s0, es, m, Paid(Step(0, DrainWake), duty), ex.View(Draining(left, taken)));
      es := es + Paid(Step(0, DrainWake), duty);
    }
  }

  /** `drain_mailbox` under the mailbox lock. */
  method DrainMailbox(ex: GuestExecutor, ghost room: nat) returns (ghost es: seq<Event>)
    requires Fit(ex, room)
    modifies ex
    ensures Leads(old(ex.View(DrainStart)), es, ex.View(Popping)) && Wakes(es) == 0
    ensures Fit(ex, room) && ex.rest == old(ex.rest).(mail := [])
  {
    ghost var s0 := ex.View(DrainStart);
    DrainBeginRun(s0);
    var entries := ex.rest.mail;
    ex.rest := ex.rest.(mailLock := Some(0));
    ghost var s1 := ex.View(Draining(entries, |entries|));
    ghost var fs := WakeDrained(ex, entries, room);
    ghost var s2 := ex.View(Draining([], |entries|));
    LeadsJoin(s0, [Step(0, DrainBegin)], s1, fs, s2);
    DrainEndRun(s2, |entries|);
    ex.rest := ex.rest.(mail := ex.rest.mail[|entries|..], mailLock := None);
    LeadsJoin(s0, [Step(0, DrainBegin)] + fs, s2, [Step(0, DrainEnd)], ex.View(Popping));
    es := [Step(0, DrainBegin)] + fs + [Step(0, DrainEnd)];
  }

  /** One thing that happens during a poll of `t`. */
  method DoDeed(ex: GuestExecutor, t: TaskId, baseline: nat, deed: Deed, ghost room: nat)
    returns (ghost es: seq<Event>)
    requires Fit(ex, room + 1) && t != 0
    modifies ex
    ensures Leads(old(ex.View(InPoll(t, baseline))), es, ex.View(InPoll(t, baseline))) && Wakes(es) <= 1
    ensures Fit(ex, room)
  {
    ghost var pc := InPoll(t, baseline);
    match deed
    case WakeOther(u) => es := ex.WakeTask(u, pc);
    case SpawnNew =>
      var id: TaskId;
      id, es := ex.SpawnTask(pc);
    case Yield =>
      YieldNowRun(ex.View(pc), t, baseline);
      ex.rest := ex.rest.(yieldQueue := ex.rest.yieldQueue + [t]);
      ex.past := ex.past.(passYields := ex.past.passYields + {t});
      es := [Step(0, YieldNow)];
    case HostEnqueues(u) =>
      HostWakeRun(ex.View(pc), u);
      ex.rest := ex.rest.(mail := ex.rest.mail + [u]);
      ex.past := ex.past.(sinceCheck := ex.past.sinceCheck + [u], unsignalled := true);
      es := [HostWake(u)];
  }

  method DoDeeds(ex: GuestExecutor, t: TaskId, baseline: nat, deeds: seq<Deed>, ghost room: nat)
    returns (ghost es: seq<Event>)
    requires Fit(ex, room + |deeds|) && t != 0
    modifies ex
    ensures Leads(old(ex.View(InPoll(t, baseline))), es, ex.View(InPoll(t, baseline))) && Wakes(es) <= |deeds|
    ensures Fit(ex, room)
    ensures deeds == [] ==> ex.tasks == old(ex.tasks) && ex.runQueue == old(ex.runQueue) && ex.rest == old(ex.rest)
  {
    ghost var pc := InPoll(t, baseline);
    ghost var s0 := ex.View(pc);
    es := [];
    LeadsNone(s0);
    for i := 0 to |deeds|
      invariant Leads(s0, es, ex.View(pc)) && Fit(ex, room + |deeds| - i) && Wakes(es) <= i
      invariant i == 0 ==> ex.tasks == old(ex.tasks) && ex.runQueue == old(ex.runQueue) && ex.rest == old(ex.rest)
    {
      ghost var m := ex.View(pc);
      ghost var fs := DoDeed(ex, t, baseline, deeds[i], room + |deeds| - i - 1);
      LeadsJoin(s0, es, m, fs, ex.View(pc));
      es := es + fs;
    }
  }

  /** The poll owner records its completion and signals before its future returns ready. */
  method Complete(ex: GuestExecutor, t: TaskId, baseline: nat) returns (ghost es: seq<Event>)
    modifies ex
    ensures Leads(old(ex.View(InPoll(t, baseline))), es, ex.View(InPoll(t, baseline))) && Wakes(es) == 0
    ensures ex.tasks == old(ex.tasks) && ex.runQueue == old(ex.runQueue) && ex.nextTaskId == old(ex.nextTaskId)
    ensures ex.rest == old(ex.rest).(done := ex.rest.done) && (t == ex.rest.owner ==> ex.rest.done)
  {
    if t == ex.rest.owner {
      OwnerDoneRun(ex.View(InPoll(t, baseline)), t, baseline);
      ex.rest := ex.rest.(done := true);
      ex.wakeWord := ex.wakeWord + 1;
      es := LAST_SIGNAL;
    } else {
      LeadsNone(ex.View(InPoll(t, baseline)));
      es := [];
    }
  }

  /** `poll_task`: take the future, poll it, and remove or park its task. */
  method PollTask(ex: GuestExecutor, t: TaskId, baseline: nat, turn: Turn, ghost room: nat)
    returns (ghost es: seq<Event>)
    requires Fit(ex, room + |turn.deeds|)
    modifies ex
    ensures Leads(old(ex.View(Claimed(t, baseline))), es, ex.View(Popping)) && Wakes(es) <= |turn.deeds|
    ensures Fit(ex, room)
    ensures turn == IDLE && (t in old(ex.tasks) ==> old(ex.tasks)[t].wakes == baseline) ==>
              ex.runQueue == old(ex.runQueue)
    ensures turn == IDLE ==> ex.rest == old(ex.rest)
  {
    ghost var s0, pc := ex.View(Claimed(t, baseline)), InPoll(t, baseline);
    if t !in ex.tasks {
      TakeNoneRun(s0, t, baseline);
      es := [Step(0, TakeFuture)];
      return;
    }
    TakeRun(s0, t, baseline);
    ex.tasks := ex.tasks[t := ex.tasks[t].(future := false)];
    es := [Step(0, TakeFuture)];
    ghost var m := ex.View(pc);
    ghost var fs := DoDeeds(ex, t, baseline, turn.deeds, room);
    LeadsJoin(s0, es, m, fs, ex.View(pc));
    es := es + fs;
    if turn.ready {
      m := ex.View(pc);
      fs := Complete(ex, t, baseline);
      LeadsJoin(s0, es, m, fs, ex.View(pc));
      es := es + fs;
    }
    m := ex.View(pc);
    fs := ex.FinishPoll(t, baseline, turn.ready);
    LeadsJoin(s0, es, m, fs, ex.View(Popping));
    es := es + fs;
  }

  /** Pops and polls until no queued task is left. `rest` is the script still to come. */
  method RunQueue(ex: GuestExecutor, script: seq<Turn>) returns (left: seq<Turn>, ghost es: seq<Event>)
    requires Fit(ex, DeedCount(script))
    modifies ex
    ensures Leads(old(ex.View(Popping)), es, ex.View(CheckQueue)) && Wakes(es) + DeedCount(left) <= DeedCount(script)
    ensures Fit(ex, DeedCount(left)) && ex.runQueue == []
    ensures |left| <= |script| && (|left| == |script| ==> ex.rest.mail == old(ex.rest.mail))
  {
    left, es := script, [];
    ghost var s0 := ex.View(Popping);
    LeadsNone(s0);
    while true
      invariant Leads(s0, es, ex.View(Popping)) && Fit(ex, DeedCount(left))
      invariant Wakes(es) + DeedCount(left) <= DeedCount(script)
      invariant |left| <= |script| && (|left| == |script| ==> ex.rest.mail == old(ex.rest.mail))
      decreases |left|, |ex.runQueue|
    {
      ghost var m := ex.View(Popping);
      var popped: Option<(TaskId, nat)>;
      ghost var fs;
      popped, fs := ex.PopRunnable();
      if popped.None? {
        LeadsJoin(s0, es, m, fs, ex.View(CheckQueue));
        es := es + fs;
        return;
      }
      var (t, baseline) := popped.value;
      LeadsJoin(s0, es, m, fs, ex.View(Claimed(t, baseline)));
      es := es + fs;
      var turn := if left == [] then IDLE else left[0];
      left := if left == [] then [] else left[1..];
      m := ex.View(Claimed(t, baseline));
      fs := PollTask(ex, t, baseline, turn, DeedCount(left));
      LeadsJoin(s0, es, m, fs, ex.View(Popping));
      es := es + fs;
    }
  }

  /** One pass: drain the mailbox, run the queue empty, and look at it once more. */
  method Pass(ex: GuestExecutor, script: seq<Turn>) returns (left: seq<Turn>, ghost es: seq<Event>)
    requires Fit(ex, DeedCount(script))
    modifies ex
    ensures Leads(old(ex.View(Top)), es, ex.View(CheckMail)) && Wakes(es) + DeedCount(left) <= DeedCount(script)
    ensures Fit(ex, DeedCount(left)) && ex.runQueue == []
    ensures |left| <= |script| && (ex.rest.mail != [] ==> |left| < |script|)
  {
    ghost var s0 := ex.View(Top);
    ExitRun(s0);
    es := [Step(0, CheckExit)];
    ghost var m := ex.View(DrainStart);
    ghost var fs := DrainMailbox(ex, DeedCount(script));
    LeadsJoin(s0, es, m, fs, ex.View(Popping));
    es := es + fs;
    m := ex.View(Popping);
    left, fs := RunQueue(ex, script);
    LeadsJoin(s0, es, m, fs, ex.View(CheckQueue));
    es := es + fs;
    m := ex.View(CheckQueue);
    LookQueueRun(m);
    LeadsJoin(s0, es, m, [Step(0, LookQueue)], ex.View(CheckMail));
    es := es + [Step(0, LookQueue)];
  }

  /** Applies the yields of the pass and returns. */
  method Finish(ex: GuestExecutor, ghost room: nat) returns (done: bool, ghost es: seq<Event>)
    requires Fit(ex, room)
    modifies ex
    ensures Leads(old(ex.View(TakeYields)), es, ex.View(Returned)) && Wakes(es) == 0
    ensures done == ex.rest.done && ex.rest == old(ex.rest).(yieldQueue := []) && Fit(ex, room)
  {
    ghost var s0, ids := ex.View(TakeYields), ex.rest.yieldQueue;
    YieldKeys(ex.tasks, ids);
    var yielded: bool;
    yielded, es := ex.ApplyYieldQueue();
    ghost var m := ex.View(if yielded then Yielding([]) else Stalled);
    ReturnRun(m, yielded);
    LeadsJoin(s0, es, m, [Step(0, LastAct(yielded))], ex.View(Returned));
    es := es + [Step(0, LastAct(yielded))];
    done := ex.rest.done;
  }

  /** `worker_loop` in cooperative mode. It returns whether the poll owner has completed. */
  method WorkerLoop(ex: GuestExecutor, script: seq<Turn>) returns (done: bool, left: seq<Turn>, ghost es: seq<Event>)
    requires Fit(ex, DeedCount(script))
    modifies ex
    ensures Leads(old(ex.View(Top)), es, ex.View(Returned)) && Wakes(es) <= DeedCount(script)
    ensures old(Reachable(ex.View(Top))) ==>
              Reachable(ex.View(Returned)) && forall t :: AtRest(ex.View(Returned), t)
    ensures done == ex.rest.done && ex.rest.mail == [] && ex.rest.yieldQueue == []
    ensures Fit(ex, DeedCount(left)) && |left| <= |script|
  {
    left, es := script, [];
    ghost var s0 := ex.View(Top);
    LeadsNone(s0);
    while true
      invariant Leads(s0, es, ex.View(Top)) && Fit(ex, DeedCount(left)) && |left| <= |script|
      invariant Wakes(es) + DeedCount(left) <= DeedCount(script)
      decreases |left|
    {
      ghost var m := ex.View(Top);
      ghost var fs;
      left, fs := Pass(ex, left);
      LeadsJoin(s0, es, m, fs, ex.View(CheckMail));
      es := es + fs;
      m := ex.View(CheckMail);
      LookMailRun(m);
      if ex.rest.mail == [] {
        ex.past := ex.past.(sinceCheck := []);
        LeadsJoin(s0, es, m, [Step(0, LookMail)], ex.View(TakeYields));
        es := es + [Step(0, LookMail)];
        m := ex.View(TakeYields);
        done, fs := Finish(ex, DeedCount(left));
        LeadsJoin(s0, es, m, fs, ex.View(Returned));
        es := es + fs;
        if Reachable(s0) {
          LoopLeavesRest(s0, es, ex.View(Returned));
        }
        return;
      }
      LeadsJoin(s0, es, m, [Step(0, LookMail)], ex.View(Top));
      es := es + [Step(0, LookMail)];
    }
  }

  /**
   `worker_enter` in cooperative mode, as the host drives it again and again: from
   a reachable executor it leads to a reachable one with everything at rest.
   */
  method WorkerEnter(ex: GuestExecutor, script: seq<Turn>) returns (done: bool, left: seq<Turn>)
    requires Fit(ex, DeedCount(script)) && Reachable(ex.View(Outside))
    modifies ex
    ensures Reachable(ex.View(Outside)) && forall t :: AtRest(ex.View(Returned), t)
    ensures done == ex.rest.done && ex.rest.mail == [] && ex.rest.yieldQueue == []
    ensures Fit(ex, DeedCount(left)) && |left| <= |script|
  {
    CanEnter(ex.View(Outside));
    ex.past := ex.past.(passYields := {});
    ghost var es;
    done, left, es := WorkerLoop(ex, script);
    CanLeave(ex.View(Returned));
  }
}
