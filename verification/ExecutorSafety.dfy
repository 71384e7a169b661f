/**
 Single flight, no lost wake and token accounting for every run of the guest
 executor.
 */
module ExecutorSafety {
  import opened Common
  import opened Executor

  predicate Holding(pc: Pc) {
    pc.Claimed? || pc.InPoll?
  }

  // ---------------------------------------------------------------------
  // The invariant on slots and on the threads that hold them
  // ---------------------------------------------------------------------

  ghost predicate SlotOk(s: State, t: TaskId)
    requires t in s.tasks
  {
    var slot := s.tasks[t];
    && 0 < t < s.nextId
    && slot.claimedAt <= slot.wakes
    && (slot.state == Parked ==> slot.wakes == slot.claimedAt)
    && (slot.state == Polling ==>
          && slot.holder < |s.threads|
          && (s.threads[slot.holder].pc == Claimed(t, slot.claimedAt)
              || s.threads[slot.holder].pc == InPoll(t, slot.claimedAt)))
    && (slot.future <==> slot.state != Polling || s.threads[slot.holder].pc.Claimed?)
  }

  ghost predicate HolderOk(s: State, i: nat)
    requires i < |s.threads|
  {
    var pc := s.threads[i].pc;
    Holding(pc) ==>
      pc.task in s.tasks && s.tasks[pc.task].state == Polling && s.tasks[pc.task].holder == i
  }

  ghost predicate SlotsOk(s: State) {
    && (forall t | t in s.tasks :: SlotOk(s, t))
    && (forall i: nat | i < |s.threads| :: HolderOk(s, i))
    && 0 < s.nextId
  }

  /** Moving threads that hold no task leaves the invariant alone. */
  lemma SlotsFrame(s: State, r: State)
    requires SlotsOk(s)
    requires r.tasks == s.tasks && s.nextId <= r.nextId && |r.threads| == |s.threads|
    requires forall k: nat | k < |s.threads| ::
      r.threads[k].pc == s.threads[k].pc || (!Holding(r.threads[k].pc) && !Holding(s.threads[k].pc))
    ensures SlotsOk(r)
  {
    forall t | t in r.tasks ensures SlotOk(r, t) {
      assert SlotOk(s, t);
    }
    forall i: nat | i < |r.threads| ensures HolderOk(r, i) {
      assert HolderOk(s, i);
    }
  }

  /** Replacing the slot of a task by one that is held in the same way. */
  lemma SlotsUpdate(s: State, t: TaskId, slot: Slot)
    requires SlotsOk(s) && t in s.tasks
    requires slot.claimedAt == s.tasks[t].claimedAt && slot.holder == s.tasks[t].holder
    requires slot.future == s.tasks[t].future
    requires slot.state == Polling <==> s.tasks[t].state == Polling
    requires s.tasks[t].wakes <= slot.wakes
    requires slot.state == Parked ==> slot == s.tasks[t]
    ensures SlotsOk(s.(tasks := s.tasks[t := slot]))
  {
    var r := s.(tasks := s.tasks[t := slot]);
    assert SlotOk(s, t);
    forall u | u in r.tasks ensures SlotOk(r, u) {
      if u != t { assert SlotOk(s, u); }
    }
    forall i: nat | i < |r.threads| ensures HolderOk(r, i) {
      assert HolderOk(s, i);
    }
  }

  /** `wake_task` at thread `i`, whose other fields may change afterwards. */
  lemma SlotsWake(s: State, t: TaskId)
    requires SlotsOk(s)
    ensures SlotsOk(s.(tasks := WakeSlot(s.tasks, t)))
  {
    if t != 0 && t in s.tasks {
      SlotsUpdate(s, t, WakeSlot(s.tasks, t)[t]);
    }
  }

  lemma SlotsYield(s: State, t: TaskId)
    requires SlotsOk(s)
    ensures SlotsOk(s.(tasks := YieldSlot(s.tasks, t)))
  {
    if t in s.tasks && s.tasks[t].state == Parked {
      SlotsUpdate(s, t, YieldSlot(s.tasks, t)[t]);
    }
  }

  lemma SlotsClaim(s: State, i: nat, t: TaskId)
    requires SlotsOk(s) && i < |s.threads| && !Holding(s.threads[i].pc)
    requires Claimable(s.tasks, t)
    ensures SlotsOk(At(s, i, Claimed(t, s.tasks[t].wakes), Clear).(tasks := ClaimSlot(s.tasks, t, i)))
  {
    var r := At(s, i, Claimed(t, s.tasks[t].wakes), Clear).(tasks := ClaimSlot(s.tasks, t, i));
    forall u | u in r.tasks ensures SlotOk(r, u) {
      assert SlotOk(s, u);
    }
    forall k: nat | k < |r.threads| ensures HolderOk(r, k) {
      assert HolderOk(s, k);
    }
  }

  /** Thread `i` keeps its task but takes the future out of the table. */
  lemma SlotsTake(s: State, i: nat)
    requires SlotsOk(s) && i < |s.threads| && s.threads[i].pc.Claimed?
    ensures var pc := s.threads[i].pc;
            && pc.task in s.tasks && s.tasks[pc.task].future
            && SlotsOk(At(s, i, InPoll(pc.task, pc.baseline), Clear).(
                 tasks := s.tasks[pc.task := s.tasks[pc.task].(future := false)]))
  {
    var pc := s.threads[i].pc;
    assert HolderOk(s, i);
    assert SlotOk(s, pc.task);
    var r := At(s, i, InPoll(pc.task, pc.baseline), Clear).(
      tasks := s.tasks[pc.task := s.tasks[pc.task].(future := false)]);
    forall u | u in r.tasks ensures SlotOk(r, u) {
      assert SlotOk(s, u);
    }
    forall k: nat | k < |r.threads| ensures HolderOk(r, k) {
      assert HolderOk(s, k);
    }
  }

  /** A poll that ends gives the task up: it is removed or re-parked. */
  lemma SlotsFinish(s: State, i: nat, next: Pc, duty: Duty, tasks: map<TaskId, Slot>)
    requires SlotsOk(s) && NoWrap(s) && i < |s.threads| && s.threads[i].pc.InPoll?
    requires !Holding(next)
    requires var pc := s.threads[i].pc;
             && pc.task in s.tasks
             && (tasks == s.tasks - {pc.task}
                 || tasks == s.tasks[pc.task := ParkSlot(s.tasks[pc.task], pc.baseline)])
    ensures SlotsOk(At(s, i, next, duty).(tasks := tasks))
  {
    var t := s.threads[i].pc.task;
    var r := At(s, i, next, duty).(tasks := tasks);
    assert HolderOk(s, i) && SlotOk(s, t);
    forall u | u in r.tasks ensures SlotOk(r, u) {
      assert SlotOk(s, u);
      if u == t {
        SmallDistance(s.tasks[t].claimedAt, s.tasks[t].wakes);
      }
    }
    forall k: nat | k < |r.threads| ensures HolderOk(r, k) {
      assert HolderOk(s, k);
    }
  }

  /** Counters closer than 2^32 are equal exactly if their 32-bit words are. */
  lemma SmallDistance(a: nat, b: nat)
    requires a <= b < a + TWO_32
    ensures a % TWO_32 == b % TWO_32 <==> a == b
  {
    if a % TWO_32 == b % TWO_32 {
      assert (b - a) % TWO_32 == 0;
    }
  }

  lemma SlotsSpawn(s: State)
    requires SlotsOk(s)
    ensures SlotsOk(s.(tasks := s.tasks[s.nextId := Slot(Queued, 0, 0, 0, true)], nextId := s.nextId + 1))
  {
    var r := s.(tasks := s.tasks[s.nextId := Slot(Queued, 0, 0, 0, true)], nextId := s.nextId + 1);
    forall u | u in r.tasks ensures SlotOk(r, u) {
      if u != s.nextId { assert SlotOk(s, u); }
    }
    forall k: nat | k < |r.threads| ensures HolderOk(r, k) {
      assert HolderOk(s, k);
      if Holding(s.threads[k].pc) { assert SlotOk(s, s.threads[k].pc.task); }
    }
  }

  lemma SlotsDuty(s: State, i: nat, act: Action)
    requires SlotsOk(s) && i < |s.threads| && Ready(s, s.threads[i], act) && GroupOf(act) == OfDuty
    ensures SlotsOk(MoveDuty(s, i, act))
  {
    SlotsFrame(s, MoveDuty(s, i, act));
  }

  /** Wakes, yields and spawns: the thread keeps what it holds. */
  lemma SlotsWaking(s: State, i: nat, act: Action)
    requires SlotsOk(s) && i < |s.threads| && ReadyAt(s, s.threads[i].pc, act) && GroupOf(act) == OfWaking
    ensures SlotsOk(MoveWaking(s, i, act))
  {
    var pc := s.threads[i].pc;
    var r := MoveWaking(s, i, act);
    match act {
      case Wake(t) => SlotsWake(s, t);
      case DrainWake => SlotsWake(s, pc.rest[0]);
      case ApplyYield => SlotsYield(s, pc.left[0]);
      case Spawn(_) => SlotsSpawn(s);
    }
    SlotsFrame(s.(tasks := r.tasks, nextId := r.nextId), r);
  }

  lemma SlotsPolling(s: State, i: nat, act: Action)
    requires SlotsOk(s) && NoWrap(s) && i < |s.threads| && ReadyAt(s, s.threads[i].pc, act)
    requires GroupOf(act) == OfPolling
    ensures SlotsOk(MovePolling(s, i, act))
  {
    var pc := s.threads[i].pc;
    var r := MovePolling(s, i, act);
    assert HolderOk(s, i);
    match act
    case PopSpecific =>
      if s.rest.owner != 0 && Claimable(s.tasks, s.rest.owner) {
        SlotsClaim(s, i, s.rest.owner);
        SlotsFrame(r.(past := s.past), r);
      } else {
        SlotsFrame(s, r);
      }
    case Claim =>
      if Claimable(s.tasks, pc.id) { SlotsClaim(s, i, pc.id); } else { SlotsFrame(s, r); }
    case TakeFuture => SlotsTake(s, i);
    case FinishReady => SlotsFinish(s, i, AfterPoll(s.threads[i].mode), Clear, r.tasks);
    case FinishPending => SlotsFinish(s, i, AfterPoll(s.threads[i].mode), r.threads[i].duty, r.tasks);
  }

  lemma SlotsUser(s: State, i: nat, act: Action)
    requires SlotsOk(s) && i < |s.threads| && ReadyAt(s, s.threads[i].pc, act) && GroupOf(act) == OfUser
    ensures SlotsOk(MoveUser(s, i, act))
  {
    SlotsFrame(s, MoveUser(s, i, act));
  }

  lemma SlotsPass(s: State, i: nat, act: Action)
    requires SlotsOk(s) && i < |s.threads| && ReadyAt(s, s.threads[i].pc, act) && GroupOf(act) == OfPass
    ensures SlotsOk(MovePass(s, i, act))
  {
    SlotsFrame(s, MovePass(s, i, act));
  }

  lemma SlotsLook(s: State, i: nat, act: Action)
    requires SlotsOk(s) && i < |s.threads| && ReadyAt(s, s.threads[i].pc, act) && GroupOf(act) == OfLook
    ensures SlotsOk(MoveLook(s, i, act))
  {
    SlotsFrame(s, MoveLook(s, i, act));
  }

  lemma SlotsStep(s: State, e: Event)
    requires SlotsOk(s) && NoWrap(s) && Enabled(s, e)
    ensures SlotsOk(Apply(s, e))
  {
    if !e.Step? {
      SlotsFrame(s, Apply(s, e));
    } else {
      match GroupOf(e.act)
      case OfDuty => SlotsDuty(s, e.i, e.act);
      case OfWaking => SlotsWaking(s, e.i, e.act);
      case OfPolling => SlotsPolling(s, e.i, e.act);
      case OfUser => SlotsUser(s, e.i, e.act);
      case OfPass => SlotsPass(s, e.i, e.act);
      case OfLook => SlotsLook(s, e.i, e.act);
    }
  }

  lemma {:induction false} SlotsAlways(n: nat, es: seq<Event>)
    requires IsRun(n, es)
    ensures SlotsOk(After(n, es))
  {
    if es != [] {
      SlotsAlways(n, es[..|es| - 1]);
      SlotsStep(After(n, es[..|es| - 1]), es[|es| - 1]);
    }
  }

  /** At most one thread holds a task, and the table says it is being polled. */
  lemma SingleFlight(n: nat, es: seq<Event>, i: nat, j: nat)
    requires IsRun(n, es)
    requires var ths := After(n, es).threads;
             && i < |ths| && j < |ths| && Holding(ths[i].pc) && Holding(ths[j].pc)
             && ths[i].pc.task == ths[j].pc.task
    ensures i == j
    ensures var s := After(n, es);
            var t := s.threads[i].pc.task;
            t in s.tasks && s.tasks[t].state == Polling
  {
    SlotsAlways(n, es);
    assert HolderOk(After(n, es), i) && HolderOk(After(n, es), j);
  }

  /**
   The future of a live task is out of the table exactly while one thread is
   inside its poll, so a claimed task always still holds its future.
   */
  lemma FuturePresence(n: nat, es: seq<Event>, t: TaskId)
    requires IsRun(n, es) && t in After(n, es).tasks
    ensures var s := After(n, es);
            !s.tasks[t].future <==>
            exists i: nat :: i < |s.threads| && s.threads[i].pc.InPoll? && s.threads[i].pc.task == t
    ensures var s := After(n, es);
            forall i: nat :: i < |s.threads| && s.threads[i].pc.Claimed? && s.threads[i].pc.task == t
                             ==> s.tasks[t].future
  {
    var s := After(n, es);
    SlotsAlways(n, es);
    assert SlotOk(s, t);
    forall i: nat | i < |s.threads| && Holding(s.threads[i].pc) && s.threads[i].pc.task == t
      ensures s.tasks[t].state == Polling && s.tasks[t].holder == i
    {
      assert HolderOk(s, i);
    }
  }

  /** The task will be polled again: it is queued, or its poller will see the word differ from the baseline. */
  predicate Pending(s: State, t: TaskId)
    requires t in s.tasks
  {
    var slot := s.tasks[t];
    || slot.state == Queued
    || (&& slot.state == Polling && slot.holder < |s.threads|
        && Holding(s.threads[slot.holder].pc) && s.threads[slot.holder].pc.task == t
        && WordMoved(slot, s.threads[slot.holder].pc.baseline))
  }

  /**
   No wake is lost: a live task woken since its last claim is queued, or it is
   being polled and its poller will see the word differ from the baseline.
   */
  lemma NoLostWake(n: nat, es: seq<Event>, t: TaskId)
    requires IsRun(n, es) && NoWrap(After(n, es))
    requires t in After(n, es).tasks && After(n, es).tasks[t].claimedAt < After(n, es).tasks[t].wakes
    ensures Pending(After(n, es), t)
  {
    SlotsAlways(n, es);
    NoLostWakeNow(After(n, es), t);
  }

  lemma NoLostWakeNow(s: State, t: TaskId)
    requires SlotsOk(s) && NoWrap(s) && t in s.tasks && s.tasks[t].claimedAt < s.tasks[t].wakes
    ensures Pending(s, t)
  {
    assert SlotOk(s, t);
    if s.tasks[t].state == Polling {
      SmallDistance(s.tasks[t].claimedAt, s.tasks[t].wakes);
    }
  }

  lemma WakeCounts(s: State, i: nat, t: TaskId)
    requires SlotsOk(s) && Enabled(s, Step(i, Wake(t))) && t in s.tasks
    ensures var r := Apply(s, Step(i, Wake(t)));
            t in r.tasks && r.tasks[t].wakes == s.tasks[t].wakes + 1 && r.tasks[t].claimedAt < r.tasks[t].wakes
  {
    assert SlotOk(s, t);
  }

  /** Whatever ran before, a wake of a live task leaves it due for another poll. */
  lemma WakeIsDelivered(n: nat, es: seq<Event>, i: nat, t: TaskId)
    requires IsRun(n, es + [Step(i, Wake(t))]) && NoWrap(After(n, es + [Step(i, Wake(t))]))
    requires t in After(n, es).tasks
    ensures var s := After(n, es + [Step(i, Wake(t))]); t in s.tasks && Pending(s, t)
  {
    var fs := es + [Step(i, Wake(t))];
    assert fs[..|fs| - 1] == es;
    SlotsAlways(n, es);
    WakeCounts(After(n, es), i, t);
    NoLostWake(n, fs, t);
  }

  /**
   The one way to lose a wake: a poll that absorbs a positive multiple of 2^32
   wakes parks its task although it was woken.
   */
  lemma LostWakeExactly(slot: Slot, baseline: nat)
    requires baseline <= slot.wakes
    ensures ParkSlot(slot, baseline).state == Parked && baseline < slot.wakes
            <==> exists k: nat :: k > 0 && slot.wakes == baseline + k * TWO_32
  {
    var d := slot.wakes - baseline;
    if slot.wakes % TWO_32 == baseline % TWO_32 {
      assert d % TWO_32 == 0;
      assert slot.wakes == baseline + (d / TWO_32) * TWO_32;
    }
  }

  // ---------------------------------------------------------------------
  // Tokens
  // ---------------------------------------------------------------------

  /** The tokens of `t` a thread carries: an owed push or a popped id. */
  function Carries(th: Thread, t: TaskId): nat {
    (if th.duty == Push(t) then 1 else 0) + (if th.pc == Popped(t) then 1 else 0)
  }

  function Carried(ths: seq<Thread>, t: TaskId): nat {
    if ths == [] then 0 else Carries(ths[0], t) + Carried(ths[1..], t)
  }

  ghost function Tokens(s: State, t: TaskId): nat {
    multiset(s.queue)[t] + Carried(s.threads, t)
  }

  lemma {:induction false} CarriedUpdate(ths: seq<Thread>, i: nat, th: Thread, t: TaskId)
    requires i < |ths|
    ensures Carried(ths[i := th], t) + Carries(ths[i], t) == Carried(ths, t) + Carries(th, t)
  {
    if i == 0 {
      assert ths[0 := th][1..] == ths[1..];
    } else {
      CarriedUpdate(ths[1..], i - 1, th, t);
      assert ths[i := th][1..] == ths[1..][i - 1 := th];
    }
  }

  lemma {:induction false} CarriedNone(ths: seq<Thread>, t: TaskId)
    requires forall i | 0 <= i < |ths| :: Carries(ths[i], t) == 0
    ensures Carried(ths, t) == 0
  {
    if ths != [] {
      assert forall i | 0 <= i < |ths[1..]| :: ths[1..][i] == ths[i + 1];
      CarriedNone(ths[1..], t);
    }
  }

  /** A queued task has a token; exactly one, and no other task has any, without `pop_specific`. */
  ghost predicate TokenOk(s: State, t: TaskId) {
    && (Claimable(s.tasks, t) ==> Tokens(s, t) >= 1)
    && (!s.past.specific ==> Tokens(s, t) == if Claimable(s.tasks, t) then 1 else 0)
  }

  /** One thread moves and the queue stays. */
  lemma TokensMove(s: State, r: State, i: nat, t: TaskId)
    requires i < |s.threads| && OnlyThread(s, r, i) && r.queue == s.queue
    ensures Tokens(r, t) + Carries(s.threads[i], t) == Tokens(s, t) + Carries(r.threads[i], t)
  {
    CarriedUpdate(s.threads, i, r.threads[i], t);
    assert r.threads == s.threads[i := r.threads[i]];
  }

  lemma TokenDuty(s: State, i: nat, act: Action, t: TaskId)
    requires TokenOk(s, t) && i < |s.threads| && Ready(s, s.threads[i], act) && GroupOf(act) == OfDuty
    ensures TokenOk(MoveDuty(s, i, act), t)
  {
    var r := MoveDuty(s, i, act);
    if act.DoNotify? && act.sleeper < |s.threads| {
      var s1 := At(s, i, s.threads[i].pc, Fewer(s.threads[i].duty.left));
      TokensMove(s, s1, i, t);
      TokensMove(s1, r, act.sleeper, t);
    } else {
      TokensMove(s, r.(queue := s.queue), i, t);
    }
  }

  lemma TokenWaking(s: State, i: nat, act: Action, t: TaskId)
    requires SlotsOk(s) && TokenOk(s, t) && i < |s.threads| && s.threads[i].duty.Clear?
    requires ReadyAt(s, s.threads[i].pc, act) && GroupOf(act) == OfWaking
    ensures TokenOk(MoveWaking(s, i, act), t)
  {
    forall u | u in s.tasks ensures u != s.nextId {
      assert SlotOk(s, u);
    }
    TokensMove(s, MoveWaking(s, i, act), i, t);
  }

  lemma TokenPolling(s: State, i: nat, act: Action, t: TaskId)
    requires SlotsOk(s) && TokenOk(s, t) && i < |s.threads| && s.threads[i].duty.Clear?
    requires ReadyAt(s, s.threads[i].pc, act) && GroupOf(act) == OfPolling
    ensures TokenOk(MovePolling(s, i, act), t)
  {
    assert HolderOk(s, i);
    TokensMove(s, MovePolling(s, i, act), i, t);
  }

  lemma TokenUser(s: State, i: nat, act: Action, t: TaskId)
    requires TokenOk(s, t) && i < |s.threads| && s.threads[i].duty.Clear?
    requires ReadyAt(s, s.threads[i].pc, act) && GroupOf(act) == OfUser
    ensures TokenOk(MoveUser(s, i, act), t)
  {
    TokensMove(s, MoveUser(s, i, act), i, t);
  }

  lemma TokenPass(s: State, i: nat, act: Action, t: TaskId)
    requires TokenOk(s, t) && i < |s.threads| && s.threads[i].duty.Clear?
    requires ReadyAt(s, s.threads[i].pc, act) && GroupOf(act) == OfPass
    ensures TokenOk(MovePass(s, i, act), t)
  {
    if act.Pop? && s.queue != [] {
      TokenPop(s, i, t);
    } else {
      TokensMove(s, MovePass(s, i, act), i, t);
    }
  }

  lemma TokenPop(s: State, i: nat, t: TaskId)
    requires TokenOk(s, t) && i < |s.threads| && s.threads[i].duty.Clear? && s.threads[i].pc.Popping? && s.queue != []
    ensures TokenOk(MovePass(s, i, Pop), t)
  {
    TokensMove(s, MovePass(s, i, Pop).(queue := s.queue), i, t);
    assert s.queue == [s.queue[0]] + s.queue[1..];
  }

  lemma TokenLook(s: State, i: nat, act: Action, t: TaskId)
    requires TokenOk(s, t) && i < |s.threads| && s.threads[i].duty.Clear?
    requires ReadyAt(s, s.threads[i].pc, act) && GroupOf(act) == OfLook
    ensures TokenOk(MoveLook(s, i, act), t)
  {
    TokensMove(s, MoveLook(s, i, act), i, t);
  }

  lemma TokenStep(s: State, e: Event, t: TaskId)
    requires SlotsOk(s) && TokenOk(s, t) && Enabled(s, e)
    ensures TokenOk(Apply(s, e), t)
  {
    if e.Step? {
      match GroupOf(e.act)
      case OfDuty => TokenDuty(s, e.i, e.act, t);
      case OfWaking => TokenWaking(s, e.i, e.act, t);
      case OfPolling => TokenPolling(s, e.i, e.act, t);
      case OfUser => TokenUser(s, e.i, e.act, t);
      case OfPass => TokenPass(s, e.i, e.act, t);
      case OfLook => TokenLook(s, e.i, e.act, t);
    }
  }

  /**
   Token accounting over every run: a live queued task has at least one token
   among queue entries, owed pushes and popped ids. Without the bootstrap pass
   it has exactly one, and a task in any other state has none.
   */
  lemma {:induction false} TokensAlways(n: nat, es: seq<Event>, t: TaskId)
    requires IsRun(n, es)
    ensures TokenOk(After(n, es), t)
  {
    if es == [] {
      CarriedNone(Init(n).threads, t);
    } else {
      var p := es[..|es| - 1];
      TokensAlways(n, p, t);
      SlotsAlways(n, p);
      TokenStep(After(n, p), es[|es| - 1], t);
    }
  }
}
