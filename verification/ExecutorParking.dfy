/**
 Parking: a worker of the pool never sleeps through work. `Queue` work is an
 entry of the run queue, `Mail` work an undrained host wake.
 */
module ExecutorParking {
  import opened Executor
  import opened ExecutorSafety

  datatype Kind = Queue | Mail

  predicate Work(s: State, k: Kind) {
    match k
    case Queue => s.queue != []
    case Mail => s.rest.mail != [] && !s.past.unsignalled
  }

  /** A worker of the pool that is inside `worker_loop`. */
  predicate IsWorker(th: Thread) {
    th.mode == Pool && !th.pc.Outside? && !th.pc.Returned?
  }

  ghost predicate HasWorker(s: State) {
    exists i: nat :: i < |s.threads| && IsWorker(s.threads[i])
  }

  /** The thread has passed its last look for `k` since it read the word. */
  predicate PastLook(pc: Pc, k: Kind) {
    pc.AboutToWait? || (k == Queue && pc.RecheckMail?)
  }

  /**
   The thread will still look for `k`: it owes a bump or a notify, or it is an
   awake worker that has not passed its last look, or its observed word is stale.
   */
  predicate Responsible(s: State, th: Thread, k: Kind) {
    || th.duty.Bump? || th.duty.Count? || th.duty.Notify?
    || (IsWorker(th) && !th.pc.Sleeping? && (PastLook(th.pc, k) ==> th.pc.seen < s.wakeWord))
  }

  ghost predicate Covered(s: State, k: Kind) {
    exists i: nat :: i < |s.threads| && Responsible(s, s.threads[i], k)
  }

  ghost predicate AnyBump(s: State) {
    exists i: nat :: i < |s.threads| && s.threads[i].duty.Bump?
  }

  ghost predicate ParkOk(s: State, k: Kind) {
    !s.rest.stop && !s.rest.done && Work(s, k) && HasWorker(s) ==> Covered(s, k)
  }

  /** Work that arrived after a worker's last look still owes its bump. */
  ghost predicate LookOk(s: State, k: Kind) {
    forall i: nat | i < |s.threads| && PastLook(s.threads[i].pc, k) && s.threads[i].pc.seen == s.wakeWord ::
      Work(s, k) ==> AnyBump(s)
  }

  predicate ThreadOk(s: State, th: Thread) {
    && (th.pc.Observe? || th.pc.RecheckQueue? || th.pc.RecheckMail? || th.pc.AboutToWait? || th.pc.Sleeping?
        ==> th.mode == Pool)
    && (th.pc.RecheckQueue? || th.pc.RecheckMail? || th.pc.AboutToWait? ==> th.pc.seen <= s.wakeWord)
  }

  ghost predicate ThreadsOk(s: State) {
    forall i: nat | i < |s.threads| :: ThreadOk(s, s.threads[i])
  }

  ghost predicate ParkingOk(s: State, k: Kind) {
    ThreadsOk(s) && LookOk(s, k) && ParkOk(s, k)
  }

  // ---------------------------------------------------------------------
  // One thread moves
  // ---------------------------------------------------------------------

  lemma StillCovered(s: State, r: State, i: nat, k: Kind)
    requires i < |s.threads| && OnlyThread(s, r, i) && s.wakeWord <= r.wakeWord
    requires Covered(s, k)
    requires Responsible(s, s.threads[i], k) ==> Responsible(r, r.threads[i], k)
    ensures Covered(r, k)
  {
    var j: nat :| j < |s.threads| && Responsible(s, s.threads[j], k);
    assert Responsible(r, r.threads[j], k);
  }

  lemma StillWorker(s: State, r: State, i: nat)
    requires i < |s.threads| && OnlyThread(s, r, i) && HasWorker(r)
    requires IsWorker(r.threads[i]) ==> IsWorker(s.threads[i])
    ensures HasWorker(s)
  {
    var j: nat :| j < |r.threads| && IsWorker(r.threads[j]);
    assert IsWorker(s.threads[j]);
  }

  lemma StillThreads(s: State, r: State, i: nat)
    requires i < |s.threads| && OnlyThread(s, r, i) && s.wakeWord <= r.wakeWord
    requires ThreadsOk(s) && ThreadOk(r, r.threads[i])
    ensures ThreadsOk(r)
  {
    forall j: nat | j < |r.threads| ensures ThreadOk(r, r.threads[j]) {
      assert ThreadOk(s, s.threads[j]);
    }
  }

  /**
   The common case: no new work without a bump owed, the word unchanged, and
   the moving thread stays responsible or was not.
   */
  lemma QuietMove(s: State, r: State, i: nat, k: Kind)
    requires i < |s.threads| && OnlyThread(s, r, i) && s.wakeWord == r.wakeWord
    requires ParkingOk(s, k) && ThreadOk(r, r.threads[i])
    requires Work(r, k) ==> Work(s, k) || r.threads[i].duty.Bump?
    requires s.threads[i].duty.Bump? ==> r.threads[i].duty.Bump?
    requires PastLook(r.threads[i].pc, k) && r.threads[i].pc.seen == r.wakeWord
             ==> (PastLook(s.threads[i].pc, k) && s.threads[i].pc.seen == s.wakeWord) || !Work(r, k)
    requires s.rest.stop ==> r.rest.stop
    requires s.rest.done ==> r.rest.done
    requires Responsible(r, r.threads[i], k)
             || !Work(r, k) || r.rest.stop || r.rest.done
             || (!Responsible(s, s.threads[i], k)
                 && (IsWorker(r.threads[i]) ==> IsWorker(s.threads[i])))
    ensures ParkingOk(r, k)
  {
    StillThreads(s, r, i);
    if r.threads[i].duty.Bump? {
      assert AnyBump(r);
      assert Responsible(r, r.threads[i], k);
    } else {
      forall j: nat | j < |r.threads| && PastLook(r.threads[j].pc, k) && r.threads[j].pc.seen == r.wakeWord
        ensures Work(r, k) ==> AnyBump(r)
      {
        if Work(r, k) {
          assert PastLook(s.threads[j].pc, k) && s.threads[j].pc.seen == s.wakeWord;
          var b: nat :| b < |s.threads| && s.threads[b].duty.Bump?;
          assert r.threads[b].duty.Bump?;
        }
      }
      if !r.rest.stop && !r.rest.done && Work(r, k) && HasWorker(r) && !Responsible(r, r.threads[i], k) {
        StillWorker(s, r, i);
        StillCovered(s, r, i, k);
      }
    }
  }

  lemma ParkPush(s: State, i: nat, k: Kind)
    requires ParkingOk(s, k) && i < |s.threads| && s.threads[i].duty.Push?
    ensures ParkingOk(MoveDuty(s, i, DoPush), k)
  {
    assert ThreadOk(s, s.threads[i]);
    QuietMove(s, MoveDuty(s, i, DoPush), i, k);
  }

  /** A bump makes every earlier observation stale. */
  lemma ParkBump(s: State, i: nat, k: Kind)
    requires ParkingOk(s, k) && i < |s.threads| && s.threads[i].duty.Bump?
    ensures ParkingOk(MoveDuty(s, i, DoBump), k)
  {
    var r := MoveDuty(s, i, DoBump);
    assert ThreadOk(s, s.threads[i]);
    StillThreads(s, r, i);
    forall j: nat | j < |r.threads| && PastLook(r.threads[j].pc, k)
      ensures r.threads[j].pc.seen < r.wakeWord
    {
      assert ThreadOk(s, s.threads[j]);
    }
    assert Responsible(r, r.threads[i], k);
  }

  /** Without active workers there is nobody to notify, and no worker. */
  lemma ParkCount(s: State, i: nat, k: Kind)
    requires ParkingOk(s, k) && i < |s.threads| && s.threads[i].duty.Count?
    ensures ParkingOk(MoveDuty(s, i, DoCount), k)
  {
    assert ThreadOk(s, s.threads[i]);
    var r := MoveDuty(s, i, DoCount);
    if Active(s.threads) == 0 {
      NoneActive(s.threads);
      StillThreads(s, r, i);
      assert forall j: nat | j < |s.threads| :: ThreadOk(s, s.threads[j]);
    } else {
      QuietMove(s, r, i, k);
    }
  }

  lemma {:induction false} NoneActive(threads: seq<Thread>)
    requires Active(threads) == 0
    ensures forall i | 0 <= i < |threads| :: threads[i].mode == Guest
  {
    if threads != [] {
      NoneActive(threads[1..]);
      assert forall i | 1 <= i < |threads| :: threads[i] == threads[1..][i - 1];
    }
  }

  /** A notify wakes a sleeper; without one, some worker is awake or stale. */
  lemma ParkNotify(s: State, i: nat, w: nat, k: Kind)
    requires ParkingOk(s, k) && i < |s.threads| && Ready(s, s.threads[i], DoNotify(w))
    ensures ParkingOk(MoveDuty(s, i, DoNotify(w)), k)
  {
    var s1 := At(s, i, s.threads[i].pc, Fewer(s.threads[i].duty.left));
    var r := MoveDuty(s, i, DoNotify(w));
    assert ThreadOk(s, s.threads[i]);
    StillThreads(s, s1, i);
    if w < |s.threads| {
      assert ThreadOk(s1, s1.threads[w]);
      StillThreads(s1, r, w);
      assert Responsible(r, r.threads[w], k);
    } else if HasWorker(r) && Work(r, k) {
      var j: nat :| j < |r.threads| && IsWorker(r.threads[j]);
      assert !s.threads[j].pc.Sleeping?;
      assert ThreadOk(s, s.threads[j]);
      if PastLook(s.threads[j].pc, k) && s.threads[j].pc.seen == s.wakeWord {
        var b: nat :| b < |s.threads| && s.threads[b].duty.Bump?;
        assert Responsible(r, r.threads[b], k);
      } else {
        assert Responsible(r, r.threads[j], k);
      }
    }
    forall j: nat | j < |r.threads| && PastLook(r.threads[j].pc, k) && r.threads[j].pc.seen == r.wakeWord
      ensures Work(r, k) ==> AnyBump(r)
    {
      if Work(r, k) {
        assert PastLook(s.threads[j].pc, k) && s.threads[j].pc.seen == s.wakeWord;
        var b: nat :| b < |s.threads| && s.threads[b].duty.Bump?;
        assert r.threads[b].duty.Bump?;
      }
    }
  }

  lemma ParkWaking(s: State, i: nat, act: Action, k: Kind)
    requires ParkingOk(s, k) && i < |s.threads| && s.threads[i].duty.Clear?
    requires ReadyAt(s, s.threads[i].pc, act) && GroupOf(act) == OfWaking
    ensures ParkingOk(MoveWaking(s, i, act), k)
  {
    assert ThreadOk(s, s.threads[i]);
    QuietMove(s, MoveWaking(s, i, act), i, k);
  }

  lemma ParkPolling(s: State, i: nat, act: Action, k: Kind)
    requires ParkingOk(s, k) && i < |s.threads| && s.threads[i].duty.Clear?
    requires ReadyAt(s, s.threads[i].pc, act) && GroupOf(act) == OfPolling
    ensures ParkingOk(MovePolling(s, i, act), k)
  {
    assert ThreadOk(s, s.threads[i]);
    QuietMove(s, MovePolling(s, i, act), i, k);
  }

  lemma ParkUser(s: State, i: nat, act: Action, k: Kind)
    requires ParkingOk(s, k) && i < |s.threads| && s.threads[i].duty.Clear?
    requires ReadyAt(s, s.threads[i].pc, act) && GroupOf(act) == OfUser
    ensures ParkingOk(MoveUser(s, i, act), k)
  {
    assert ThreadOk(s, s.threads[i]);
    QuietMove(s, MoveUser(s, i, act), i, k);
  }

  lemma ParkPass(s: State, i: nat, act: Action, k: Kind)
    requires ParkingOk(s, k) && i < |s.threads| && s.threads[i].duty.Clear?
    requires ReadyAt(s, s.threads[i].pc, act) && GroupOf(act) == OfPass
    ensures ParkingOk(MovePass(s, i, act), k)
  {
    assert ThreadOk(s, s.threads[i]);
    QuietMove(s, MovePass(s, i, act), i, k);
  }

  lemma ParkLook(s: State, i: nat, act: Action, k: Kind)
    requires ParkingOk(s, k) && NoWrap(s) && i < |s.threads| && s.threads[i].duty.Clear?
    requires ReadyAt(s, s.threads[i].pc, act) && GroupOf(act) == OfLook
    ensures ParkingOk(MoveLook(s, i, act), k)
  {
    assert ThreadOk(s, s.threads[i]);
    if act.Wait? {
      SmallDistance(s.threads[i].pc.seen, s.wakeWord);
    }
    QuietMove(s, MoveLook(s, i, act), i, k);
  }

  lemma ParkHost(s: State, e: Event, k: Kind)
    requires ParkingOk(s, k) && !e.Step?
    ensures ParkingOk(Apply(s, e), k)
  {
    var r := Apply(s, e);
    forall j: nat | j < |r.threads| ensures ThreadOk(r, r.threads[j]) {
      assert ThreadOk(s, s.threads[j]);
    }
    if AnyBump(s) {
      var b: nat :| b < |s.threads| && s.threads[b].duty.Bump?;
      assert r.threads[b].duty.Bump?;
    }
    if Covered(s, k) {
      var j: nat :| j < |s.threads| && Responsible(s, s.threads[j], k);
      assert Responsible(r, r.threads[j], k);
    }
  }

  lemma ParkStep(s: State, e: Event, k: Kind)
    requires ParkingOk(s, k) && NoWrap(s) && Enabled(s, e)
    ensures ParkingOk(Apply(s, e), k)
  {
    if !e.Step? {
      ParkHost(s, e, k);
    } else {
      match GroupOf(e.act)
      case OfDuty =>
        match e.act {
          case DoPush => ParkPush(s, e.i, k);
          case DoBump => ParkBump(s, e.i, k);
          case DoCount => ParkCount(s, e.i, k);
          case DoNotify(w) => ParkNotify(s, e.i, w, k);
        }
      case OfWaking => ParkWaking(s, e.i, e.act, k);
      case OfPolling => ParkPolling(s, e.i, e.act, k);
      case OfUser => ParkUser(s, e.i, e.act, k);
      case OfPass => ParkPass(s, e.i, e.act, k);
      case OfLook => ParkLook(s, e.i, e.act, k);
    }
  }

  lemma {:induction false} ParkingAlways(n: nat, es: seq<Event>, k: Kind)
    requires IsRun(n, es)
    ensures ParkingOk(After(n, es), k)
  {
    if es != [] {
      ParkingAlways(n, es[..|es| - 1], k);
      ParkStep(After(n, es[..|es| - 1]), es[|es| - 1], k);
    }
  }

  /**
   No stuck parking: until a stop or the end of the poll owner, work that is
   waiting always has a thread that owes a signal, or an awake worker that will
   look again, or one about to wait on a stale word.
   */
  lemma NoStuckParking(n: nat, es: seq<Event>, k: Kind)
    requires IsRun(n, es)
    requires var s := After(n, es); !s.rest.stop && !s.rest.done && HasWorker(s) && Work(s, k)
    ensures Covered(After(n, es), k)
  {
    ParkingAlways(n, es, k);
  }

  /** Every thread is asleep in the pool or outside, owing nothing. */
  predicate AllIdle(s: State) {
    forall i | 0 <= i < |s.threads| ::
      s.threads[i].duty.Clear? && (s.threads[i].pc.Sleeping? || s.threads[i].pc.Outside?)
  }

  /**
   When the whole pool sleeps and nobody owes anything, there is nothing to do:
   the queue is empty, every signalled host wake is drained, and every live
   task is parked without an undelivered wake.
   */
  lemma SleepMeansIdle(n: nat, es: seq<Event>, t: TaskId)
    requires IsRun(n, es) && AllIdle(After(n, es))
    requires var s := After(n, es); !s.rest.stop && !s.rest.done && HasWorker(s)
    ensures var s := After(n, es);
            && s.queue == [] && (s.rest.mail == [] || s.past.unsignalled)
            && (t in s.tasks ==> s.tasks[t].state == Parked && s.tasks[t].wakes == s.tasks[t].claimedAt)
  {
    var s := After(n, es);
    ParkingAlways(n, es, Queue);
    ParkingAlways(n, es, Mail);
    SlotsAlways(n, es);
    TokensAlways(n, es, t);
    assert forall i: nat | i < |s.threads| ::
        !Responsible(s, s.threads[i], Queue) && !Responsible(s, s.threads[i], Mail);
    CarriedNone(s.threads, t);
    if t in s.tasks {
      assert SlotOk(s, t);
    }
  }
}
