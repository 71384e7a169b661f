/**
 What the executor's queues hold, read off the history of a run: the run queue and
 the host mailbox lose nothing, repeat nothing and keep their order, and the yield
 queue loses and repeats nothing.
 */
module ExecutorOrder {
  import opened Common
  import opened Executor

  // ---------------------------------------------------------------------
  // The run queue
  // ---------------------------------------------------------------------

  /** The task an event pushes. */
  function Pushes(s: State, e: Event): seq<TaskId>
    requires Enabled(s, e)
  {
    if e.Step? && e.act.DoPush? then [s.threads[e.i].duty.task] else []
  }

  /** The task an event pops, from where it leaves its thread. */
  function Pops(e: Event, r: State): seq<TaskId> {
    if e.Step? && e.act.Pop? && e.i < |r.threads| && r.threads[e.i].pc.Popped? then [r.threads[e.i].pc.id] else []
  }

  lemma QueueKept(s: State, i: nat, act: Action, r: State)
    requires Enabled(s, Step(i, act)) && r == Move(s, i, act)
    requires !act.DoPush? && !act.Pop?
    ensures r.queue == s.queue
  {
    match GroupOf(act)
    case OfDuty => assert r == MoveDuty(s, i, act);
    case OfWaking => assert r == MoveWaking(s, i, act);
    case OfPolling => assert r == MovePolling(s, i, act);
    case OfUser => assert r == MoveUser(s, i, act);
    case OfPass => assert r == MovePass(s, i, act);
    case OfLook => assert r == MoveLook(s, i, act);
  }

  lemma QueueStep(s: State, e: Event, r: State)
    requires Enabled(s, e) && r == Apply(s, e)
    ensures s.queue + Pushes(s, e) == Pops(e, r) + r.queue
  {
    if e.Step? && !e.act.DoPush? && !e.act.Pop? {
      QueueKept(s, e.i, e.act, r);
    }
  }

  /** One more event on both sides of a queue. */
  lemma Onward(put: seq<TaskId>, got: seq<TaskId>, held: seq<TaskId>, more: seq<TaskId>, less: seq<TaskId>,
               left: seq<TaskId>)
    requires put == got + held && held + more == less + left
    ensures put + more == got + less + left
  {
    assert put + more == got + (held + more);
  }

  /** Every task pushed, in order. */
  ghost function Pushed(n: nat, es: seq<Event>): seq<TaskId> {
    if es == [] then []
    else
      var rest, e := es[..|es| - 1], es[|es| - 1];
      Pushed(n, rest) + if Enabled(After(n, rest), e) then Pushes(After(n, rest), e) else []
  }

  /** Every task popped, in order. */
  ghost function Popped(n: nat, es: seq<Event>): seq<TaskId> {
    if es == [] then [] else Popped(n, es[..|es| - 1]) + Pops(es[|es| - 1], After(n, es))
  }

  /** Tasks are popped in the order they were pushed, each push once. */
  lemma {:induction false} QueueInOrder(n: nat, es: seq<Event>)
    requires IsRun(n, es)
    ensures Pushed(n, es) == Popped(n, es) + After(n, es).queue
  {
    if es != [] {
      var rest, e := es[..|es| - 1], es[|es| - 1];
      QueueInOrder(n, rest);
      var s, r := After(n, rest), After(n, es);
      QueueStep(s, e, r);
      Onward(Pushed(n, rest), Popped(n, rest), s.queue, Pushes(s, e), Pops(e, r), r.queue);
    }
  }

  // ---------------------------------------------------------------------
  // The mailbox
  // ---------------------------------------------------------------------

  /** What the host puts in the mailbox. */
  function Mails(e: Event): seq<TaskId> {
    match e
    case HostWake(t) => [t]
    case Step(_, HostSend(t)) => [t]
    case _ => []
  }

  /** The entry an event passes to `wake_task`. */
  function Rouses(s: State, e: Event): seq<TaskId>
    requires Enabled(s, e)
  {
    if e.Step? && e.act.DrainWake? then [s.threads[e.i].pc.rest[0]] else []
  }

  /** The thread that drains holds the lock, and what it took is still in the mailbox. */
  predicate MailOk(s: State) {
    && (forall j: nat | j < |s.threads| :: s.threads[j].pc.Draining? <==> s.rest.mailLock == Some(j))
    && (s.rest.mailLock.Some? ==>
          && s.rest.mailLock.value < |s.threads|
          && var pc := s.threads[s.rest.mailLock.value].pc; pc.Draining? && pc.taken <= |s.rest.mail|)
  }

  /** The entries not yet passed to `wake_task`. */
  function Unwoken(s: State): seq<TaskId>
    requires MailOk(s)
  {
    if s.rest.mailLock.None? then s.rest.mail
    else
      var pc := s.threads[s.rest.mailLock.value].pc;
      pc.rest + s.rest.mail[pc.taken..]
  }

  /** A step that leaves the mailbox alone, and takes no thread in or out of a drain. */
  lemma MailFrame(s: State, r: State, i: nat, j: nat)
    requires MailOk(s) && |r.threads| == |s.threads|
    requires forall k: nat | k < |s.threads| && k != i && k != j :: r.threads[k].pc == s.threads[k].pc
    requires forall k: nat | k < |s.threads| && (k == i || k == j) ::
               s.threads[k].pc.Draining? || r.threads[k].pc.Draining? ==> r.threads[k].pc == s.threads[k].pc
    requires r.rest.mailLock == s.rest.mailLock && r.rest.mail == s.rest.mail
    ensures MailOk(r) && Unwoken(r) == Unwoken(s)
  {
  }

  lemma MailArrives(s: State, r: State, t: TaskId)
    requires MailOk(s) && |r.threads| == |s.threads|
    requires forall k: nat | k < |s.threads| :: r.threads[k].pc == s.threads[k].pc
    requires r.rest.mailLock == s.rest.mailLock && r.rest.mail == s.rest.mail + [t]
    ensures MailOk(r) && Unwoken(r) == Unwoken(s) + [t]
  {
  }

  lemma MailPass(s: State, i: nat, act: Action, r: State)
    requires MailOk(s) && i < |s.threads| && s.threads[i].duty.Clear? && ReadyAt(s, s.threads[i].pc, act)
    requires GroupOf(act) == OfPass && r == MovePass(s, i, act)
    ensures MailOk(r) && Unwoken(r) == Unwoken(s)
  {
    match act {
      case DrainBegin => assert s.rest.mail[|s.rest.mail|..] == [];
      case DrainEnd =>
      case _ => MailFrame(s, r, i, i);
    }
  }

  lemma MailKept(s: State, i: nat, act: Action, r: State)
    requires MailOk(s) && Enabled(s, Step(i, act)) && r == Move(s, i, act)
    requires GroupOf(act) != OfPass && !act.DrainWake? && !act.HostSend?
    ensures MailOk(r) && Unwoken(r) == Unwoken(s)
  {
    match GroupOf(act)
    case OfDuty => MailDuty(s, i, act, r);
    case OfWaking =>
      assert r == MoveWaking(s, i, act);
      MailFrame(s, r, i, i);
    case OfPolling => MailPolling(s, i, act, r);
    case OfUser =>
      assert r == MoveUser(s, i, act);
      MailFrame(s, r, i, i);
    case OfLook =>
      assert r == MoveLook(s, i, act);
      MailFrame(s, r, i, i);
  }

  lemma MailDuty(s: State, i: nat, act: Action, r: State)
    requires MailOk(s) && i < |s.threads| && Ready(s, s.threads[i], act) && GroupOf(act) == OfDuty
    requires r == MoveDuty(s, i, act)
    ensures MailOk(r) && Unwoken(r) == Unwoken(s)
  {
    MailFrame(s, r, i, if act.DoNotify? then act.sleeper else i);
  }

  lemma MailPolling(s: State, i: nat, act: Action, r: State)
    requires MailOk(s) && i < |s.threads| && ReadyAt(s, s.threads[i].pc, act) && GroupOf(act) == OfPolling
    requires r == MovePolling(s, i, act)
    ensures MailOk(r) && Unwoken(r) == Unwoken(s)
  {
    MailFrame(s, r, i, i);
  }

  lemma MailWoken(s: State, i: nat, r: State)
    requires MailOk(s) && i < |s.threads| && ReadyAt(s, s.threads[i].pc, DrainWake)
    requires r == MoveWaking(s, i, DrainWake)
    ensures MailOk(r) && Unwoken(s) == [s.threads[i].pc.rest[0]] + Unwoken(r)
  {
    assert r.threads[i].pc == s.threads[i].pc.(rest := s.threads[i].pc.rest[1..]);
    assert r.rest == s.rest;
  }

  lemma MailStep(s: State, e: Event, r: State)
    requires MailOk(s) && Enabled(s, e) && r == Apply(s, e)
    ensures MailOk(r) && Unwoken(s) + Mails(e) == Rouses(s, e) + Unwoken(r)
  {
    match e
    case HostWake(t) => MailArrives(s, r, t);
    case HostStop => MailFrame(s, r, 0, 0);
    case Step(i, act) =>
      if act.DrainWake? {
        MailWoken(s, i, r);
      } else if act.HostSend? {
        MailArrives(s, r, act.t);
      } else if GroupOf(act) == OfPass {
        MailPass(s, i, act, r);
      } else {
        MailKept(s, i, act, r);
      }
  }

  /** Every entry the host put in the mailbox, in order. */
  function Mailed(es: seq<Event>): seq<TaskId> {
    if es == [] then [] else Mailed(es[..|es| - 1]) + Mails(es[|es| - 1])
  }

  /** Every entry passed to `wake_task`, in order. */
  ghost function Roused(n: nat, es: seq<Event>): seq<TaskId> {
    if es == [] then []
    else
      var rest, e := es[..|es| - 1], es[|es| - 1];
      Roused(n, rest) + if Enabled(After(n, rest), e) then Rouses(After(n, rest), e) else []
  }

  /** Every host wake is passed to `wake_task` once, in the order the host sent them. */
  lemma {:induction false} MailInOrder(n: nat, es: seq<Event>)
    requires IsRun(n, es)
    ensures MailOk(After(n, es)) && Mailed(es) == Roused(n, es) + Unwoken(After(n, es))
  {
    if es != [] {
      var rest, e := es[..|es| - 1], es[|es| - 1];
      MailInOrder(n, rest);
      var s, r := After(n, rest), After(n, es);
      MailStep(s, e, r);
      Onward(Mailed(rest), Roused(n, rest), Unwoken(s), Mails(e), Rouses(s, e), Unwoken(r));
    }
  }

  // ---------------------------------------------------------------------
  // Yields
  // ---------------------------------------------------------------------

  /** The drained yields a thread has yet to apply. */
  function Left(th: Thread): seq<TaskId> {
    if th.pc.Yielding? then th.pc.left else []
  }

  function Times(q: seq<TaskId>, t: TaskId): nat {
    if q == [] then 0 else (if q[0] == t then 1 else 0) + Times(q[1..], t)
  }

  lemma {:induction false} TimesMore(q: seq<TaskId>, x: TaskId, t: TaskId)
    ensures Times(q + [x], t) == Times(q, t) + if x == t then 1 else 0
  {
    if q != [] {
      TimesMore(q[1..], x, t);
      assert (q + [x])[1..] == q[1..] + [x];
    }
  }

  function LeftOver(ths: seq<Thread>, t: TaskId): nat {
    if ths == [] then 0 else Times(Left(ths[0]), t) + LeftOver(ths[1..], t)
  }

  lemma {:induction false} LeftSame(a: seq<Thread>, b: seq<Thread>, t: TaskId)
    requires |a| == |b| && forall k: nat | k < |a| :: Left(a[k]) == Left(b[k])
    ensures LeftOver(a, t) == LeftOver(b, t)
  {
    if a != [] {
      LeftSame(a[1..], b[1..], t);
    }
  }

  lemma {:induction false} LeftPut(ths: seq<Thread>, i: nat, th: Thread, t: TaskId)
    requires i < |ths|
    ensures LeftOver(ths[i := th], t) + Times(Left(ths[i]), t) == LeftOver(ths, t) + Times(Left(th), t)
  {
    var now := ths[i := th];
    if i == 0 {
      assert now[1..] == ths[1..];
    } else {
      LeftPut(ths[1..], i - 1, th, t);
      assert now[1..] == ths[1..][i - 1 := th];
    }
  }

  /** The yields of the task not yet applied. */
  function Unapplied(s: State, t: TaskId): nat {
    Times(s.rest.yieldQueue, t) + LeftOver(s.threads, t)
  }

  /** Whether an event is a yield of the task, and whether it applies one. */
  function Yields(s: State, e: Event, t: TaskId): nat
    requires Enabled(s, e)
  {
    if e.Step? && e.act.YieldNow? && s.threads[e.i].pc.task == t then 1 else 0
  }

  function Applies(s: State, e: Event, t: TaskId): nat
    requires Enabled(s, e)
  {
    if e.Step? && e.act.ApplyYield? && s.threads[e.i].pc.left[0] == t then 1 else 0
  }

  predicate Yieldy(act: Action) {
    act.YieldNow? || act.ApplyYield? || act.DrainYields?
  }

  lemma YieldsKept(s: State, i: nat, act: Action, r: State)
    requires Enabled(s, Step(i, act)) && r == Move(s, i, act) && !Yieldy(act)
    ensures r.rest.yieldQueue == s.rest.yieldQueue && |r.threads| == |s.threads|
    ensures forall k: nat | k < |s.threads| :: Left(r.threads[k]) == Left(s.threads[k])
  {
    match GroupOf(act)
    case OfDuty => assert r == MoveDuty(s, i, act);
    case OfWaking => assert r == MoveWaking(s, i, act);
    case OfPolling => assert r == MovePolling(s, i, act);
    case OfUser => assert r == MoveUser(s, i, act);
    case OfPass => assert r == MovePass(s, i, act);
    case OfLook => assert r == MoveLook(s, i, act);
  }

  lemma YieldsMoved(s: State, i: nat, act: Action, r: State, t: TaskId)
    requires Enabled(s, Step(i, act)) && r == Move(s, i, act) && Yieldy(act)
    ensures Unapplied(s, t) + Yields(s, Step(i, act), t) == Applies(s, Step(i, act), t) + Unapplied(r, t)
  {
    match act
    case YieldNow => TimesMore(s.rest.yieldQueue, s.threads[i].pc.task, t);
    case ApplyYield =>
      assert r == MoveWaking(s, i, act);
      LeftMoved(s, i, r, t);
    case DrainYields =>
      assert r == MovePass(s, i, act);
      LeftMoved(s, i, r, t);
  }

  lemma LeftMoved(s: State, i: nat, r: State, t: TaskId)
    requires i < |s.threads| && OnlyThread(s, r, i)
    ensures LeftOver(r.threads, t) + Times(Left(s.threads[i]), t) ==
            LeftOver(s.threads, t) + Times(Left(r.threads[i]), t)
  {
    LeftPut(s.threads, i, r.threads[i], t);
    assert r.threads == s.threads[i := r.threads[i]];
  }

  lemma YieldStep(s: State, e: Event, r: State, t: TaskId)
    requires Enabled(s, e) && r == Apply(s, e)
    ensures Unapplied(s, t) + Yields(s, e, t) == Applies(s, e, t) + Unapplied(r, t)
  {
    if e.Step? && Yieldy(e.act) {
      YieldsMoved(s, e.i, e.act, r, t);
    } else {
      if e.Step? {
        YieldsKept(s, e.i, e.act, r);
      }
      LeftSame(s.threads, r.threads, t);
    }
  }

  /** How often the task yielded. */
  ghost function Yielded(n: nat, es: seq<Event>, t: TaskId): nat {
    if es == [] then 0
    else
      var rest, e := es[..|es| - 1], es[|es| - 1];
      Yielded(n, rest, t) + if Enabled(After(n, rest), e) then Yields(After(n, rest), e, t) else 0
  }

  /** How many of those yields were applied. */
  ghost function Applied(n: nat, es: seq<Event>, t: TaskId): nat {
    if es == [] then 0
    else
      var rest, e := es[..|es| - 1], es[|es| - 1];
      Applied(n, rest, t) + if Enabled(After(n, rest), e) then Applies(After(n, rest), e, t) else 0
  }

  /** Every yield is applied once, whichever worker drained it. */
  lemma {:induction false} YieldsConserved(n: nat, es: seq<Event>, t: TaskId)
    requires IsRun(n, es)
    ensures Yielded(n, es, t) == Applied(n, es, t) + Unapplied(After(n, es), t)
  {
    if es == [] {
      LeftNone(n, t);
    } else {
      var rest, e := es[..|es| - 1], es[|es| - 1];
      YieldsConserved(n, rest, t);
      YieldStep(After(n, rest), e, After(n, es), t);
    }
  }

  lemma {:induction false} LeftNone(n: nat, t: TaskId)
    ensures LeftOver(Init(n).threads, t) == 0
  {
    if n > 0 {
      LeftNone(n - 1, t);
      assert Init(n).threads[1..] == Init(n - 1).threads;
    }
  }

  // ---------------------------------------------------------------------
  // The poll owner and the two flags
  // ---------------------------------------------------------------------

  /** The id given to the task spawned as poll owner. */
  ghost function OwnerSpawned(n: nat, es: seq<Event>): TaskId {
    if es == [] then 0
    else
      var rest, e := es[..|es| - 1], es[|es| - 1];
      if e.Step? && e.act == Spawn(true) then After(n, rest).nextId else OwnerSpawned(n, rest)
  }

  lemma RestKept(s: State, i: nat, act: Action, r: State)
    requires Enabled(s, Step(i, act)) && r == Move(s, i, act) && GroupOf(act) != OfWaking && !act.OwnerDone?
    ensures r.rest.owner == s.rest.owner && r.rest.done == s.rest.done && r.rest.stop == s.rest.stop
  {
    match GroupOf(act)
    case OfDuty => assert r == MoveDuty(s, i, act);
    case OfPolling => assert r == MovePolling(s, i, act);
    case OfUser => assert r == MoveUser(s, i, act);
    case OfPass => assert r == MovePass(s, i, act);
    case OfLook => assert r == MoveLook(s, i, act);
  }

  lemma FlagsStep(s: State, e: Event, r: State)
    requires Enabled(s, e) && r == Apply(s, e)
    ensures r.rest.owner == if e.Step? && e.act == Spawn(true) then s.nextId else s.rest.owner
    ensures r.rest.done <==> s.rest.done || (e.Step? && e.act.OwnerDone?)
    ensures r.rest.stop <==> s.rest.stop || e.HostStop?
  {
    if e.Step? && GroupOf(e.act) != OfWaking && !e.act.OwnerDone? {
      RestKept(s, e.i, e.act, r);
    }
  }

  /**
   The poll owner is the task spawned as such; it counts as done once it completed,
   and a stop is seen once the host asked for it. Neither is ever taken back.
   */
  lemma {:induction false} FlagsAre(n: nat, es: seq<Event>)
    requires IsRun(n, es)
    ensures After(n, es).rest.owner == OwnerSpawned(n, es)
    ensures After(n, es).rest.done <==> exists i :: Step(i, OwnerDone) in es
    ensures After(n, es).rest.stop <==> HostStop in es
  {
    if es != [] {
      var rest, e := es[..|es| - 1], es[|es| - 1];
      FlagsAre(n, rest);
      FlagsStep(After(n, rest), e, After(n, es));
      assert es == rest + [e];
      assert e.Step? && e.act.OwnerDone? ==> e == Step(e.i, OwnerDone);
    }
  }

  // ---------------------------------------------------------------------
  // Single steps
  // ---------------------------------------------------------------------

  /**
   A whole signal: the wake word moves by one, one sleeper is released if there is
   any, and nothing else changes.
   */
  lemma SignalAlone(s: State, i: nat, w: nat, r: State)
    requires i < |s.threads| && s.threads[i].duty.Clear? && UserCode(s.threads[i].pc)
    requires if AnySleeping(s) then w < |s.threads| && s.threads[w].pc.Sleeping? else w == |s.threads|
    requires r == s.(wakeWord := s.wakeWord + 1,
                     threads := if w < |s.threads| then s.threads[w := s.threads[w].(pc := Top)] else s.threads)
    ensures Enabled(s, Step(i, Signal))
    ensures var a := Apply(s, Step(i, Signal));
            && Enabled(a, Step(i, DoBump))
            && var b := Apply(a, Step(i, DoBump));
               Enabled(b, Step(i, DoNotify(w))) && Apply(b, Step(i, DoNotify(w))) == r
  {
    var th := s.threads[i];
    var a := s.(threads := s.threads[i := th.(duty := Bump(false))]);
    var b := s.(wakeWord := s.wakeWord + 1, threads := s.threads[i := th.(duty := Notify(1))]);
    assert Apply(s, Step(i, Signal)) == a;
    assert Apply(a, Step(i, DoBump)) == b by { assert a.threads[i := th.(duty := Notify(1))] == b.threads; }
    SleepersKept(s, b, i);
    SignalEnds(s, b, i, w, r);
  }

  lemma SleepersKept(s: State, b: State, i: nat)
    requires i < |s.threads| && !s.threads[i].pc.Sleeping? && OnlyThread(s, b, i) && !b.threads[i].pc.Sleeping?
    ensures AnySleeping(s) <==> AnySleeping(b)
  {
    if j :| 0 <= j < |s.threads| && s.threads[j].pc.Sleeping? {
      assert b.threads[j].pc.Sleeping?;
    }
    if j :| 0 <= j < |b.threads| && b.threads[j].pc.Sleeping? {
      assert s.threads[j].pc.Sleeping?;
    }
  }

  lemma SignalEnds(s: State, b: State, i: nat, w: nat, r: State)
    requires i < |s.threads| && s.threads[i].duty.Clear? && w != i && w <= |s.threads|
    requires b == s.(wakeWord := s.wakeWord + 1, threads := s.threads[i := s.threads[i].(duty := Notify(1))])
    requires Enabled(b, Step(i, DoNotify(w)))
    requires r == s.(wakeWord := s.wakeWord + 1,
                     threads := if w < |s.threads| then s.threads[w := s.threads[w].(pc := Top)] else s.threads)
    ensures Apply(b, Step(i, DoNotify(w))) == r
  {
    assert b.threads[i := s.threads[i]] == s.threads;
    assert Apply(b, Step(i, DoNotify(w))) == MoveDuty(b, i, DoNotify(w));
  }

  /** A look goes back to the loop top exactly when it finds work. */
  lemma FindsWork(s: State, i: nat, act: Action)
    requires i < |s.threads| && s.threads[i].duty.Clear? && ReadyAt(s, s.threads[i].pc, act)
    requires act.LookQueue? || act.RelookQueue? || act.LookMail? || act.RelookMail?
    ensures var r := Apply(s, Step(i, act));
            r.threads[i].pc == Top <==> if act.LookQueue? || act.RelookQueue? then s.queue != [] else s.rest.mail != []
  {
  }

  /** A claim succeeds exactly on a queued task, which it turns to polling for this thread. */
  lemma ClaimsExactly(s: State, i: nat, act: Action, t: TaskId)
    requires i < |s.threads| && s.threads[i].duty.Clear? && ReadyAt(s, s.threads[i].pc, act)
    requires (act.Claim? && s.threads[i].pc == Pc.Popped(t)) || (act.PopSpecific? && s.rest.owner == t != 0)
    ensures var r := Apply(s, Step(i, act));
            && (r.threads[i].pc.Claimed? <==> t in s.tasks && s.tasks[t].state == Queued)
            && (r.threads[i].pc.Claimed? ==>
                  && r.threads[i].pc == Claimed(t, s.tasks[t].wakes) && r.tasks.Keys == s.tasks.Keys
                  && r.tasks[t].state == Polling && r.tasks[t].holder == i
                  && forall u | u in s.tasks && u != t :: r.tasks[u] == s.tasks[u])
            && (!r.threads[i].pc.Claimed? ==> r.tasks == s.tasks)
  {
  }

  /** A thread enters at the loop top, or at the drain in the bootstrap pass, and changes nothing else but history. */
  lemma EntersExactly(s: State, i: nat, m: Mode)
    requires i < |s.threads| && s.threads[i].duty.Clear? && s.threads[i].pc.Outside?
    ensures var r := Apply(s, Step(i, Enter(m)));
            && r.threads == s.threads[i := Thread(m, if m == Guest then DrainStart else Top, Clear)]
            && r.tasks == s.tasks && r.queue == s.queue && r.wakeWord == s.wakeWord && r.rest == s.rest
  {
  }

  /** A finished task leaves the table, and no other task is touched. */
  lemma FinishesExactly(s: State, i: nat)
    requires i < |s.threads| && s.threads[i].duty.Clear? && ReadyAt(s, s.threads[i].pc, FinishReady)
    ensures var r, t := Apply(s, Step(i, FinishReady)), s.threads[i].pc.task;
            && t !in r.tasks && r.tasks.Keys == s.tasks.Keys - {t}
            && forall u | u in r.tasks :: r.tasks[u] == s.tasks[u]
  {
  }

  /** An applied yield queues its task exactly if it is parked, owes its enqueue then, and leaves its word alone. */
  lemma AppliesExactly(s: State, i: nat)
    requires i < |s.threads| && s.threads[i].duty.Clear? && ReadyAt(s, s.threads[i].pc, ApplyYield)
    ensures var r, t := Apply(s, Step(i, ApplyYield)), s.threads[i].pc.left[0];
            var parked := t in s.tasks && s.tasks[t].state == Parked;
            && r.threads[i].duty == (if parked then Push(t) else Clear)
            && (parked ==> r.tasks == s.tasks[t := s.tasks[t].(state := Queued)])
            && (!parked ==> r.tasks == s.tasks)
  {
  }
}
