/**
 The end of a pool: after a stop, or once the poll owner is done, workers return
 and do not sleep again, and the last signal reaches every sleeping worker.
 */
module ExecutorStopping {
  import opened Common
  import opened Executor
  import opened ExecutorSafety
  import opened ExecutorParking

  /** A stop was requested or the poll owner has completed. */
  predicate Ending(s: State) {
    s.rest.stop || s.rest.done
  }

  /** A worker on its way to sleep, or asleep. */
  predicate MaySleep(pc: Pc) {
    pc.Observe? || pc.RecheckQueue? || pc.RecheckMail? || pc.AboutToWait? || pc.Sleeping?
  }

  /** Where a thread can owe part of a signal. */
  predicate MayOwe(pc: Pc) {
    pc.Outside? || pc.Draining? || pc.Popping? || pc.InPoll? || pc.TakeYields? || pc.Yielding?
  }

  /** A worker returns only at the end, and the last signal is owed only then. */
  predicate EndOk(th: Thread, ending: bool) {
    && (th.duty.Clear? || MayOwe(th.pc))
    && (th.mode == Pool && th.pc.Returned? ==> ending)
    && (th.duty == Bump(true) || th.duty.Count? ==> ending)
  }

  ghost predicate EndsOk(s: State) {
    forall i: nat | i < |s.threads| :: EndOk(s.threads[i], Ending(s))
  }

  // ---------------------------------------------------------------------
  // What every event keeps
  // ---------------------------------------------------------------------

  lemma EndingStays(s: State, e: Event, r: State)
    requires Enabled(s, e) && r == Apply(s, e) && Ending(s)
    ensures Ending(r)
  {
    if e.Step? {
      match GroupOf(e.act)
      case OfDuty => assert r == MoveDuty(s, e.i, e.act);
      case OfWaking => assert r == MoveWaking(s, e.i, e.act);
      case OfPolling => assert r == MovePolling(s, e.i, e.act);
      case OfUser => assert r == MoveUser(s, e.i, e.act);
      case OfPass => assert r == MovePass(s, e.i, e.act);
      case OfLook => assert r == MoveLook(s, e.i, e.act);
    }
  }

  lemma EndsMove(s: State, r: State, i: nat)
    requires EndsOk(s) && i < |s.threads| && OnlyThread(s, r, i) && (Ending(s) ==> Ending(r))
    requires EndOk(r.threads[i], Ending(r))
    ensures EndsOk(r)
  {
    forall j: nat | j < |r.threads| ensures EndOk(r.threads[j], Ending(r)) {
      if j != i { assert EndOk(s.threads[j], Ending(s)); }
    }
  }

  lemma EndsDuty(s: State, i: nat, act: Action)
    requires EndsOk(s) && i < |s.threads| && Ready(s, s.threads[i], act) && GroupOf(act) == OfDuty
    ensures EndsOk(MoveDuty(s, i, act))
  {
    assert EndOk(s.threads[i], Ending(s));
    var r := MoveDuty(s, i, act);
    if act.DoNotify? && act.sleeper < |s.threads| {
      assert EndOk(s.threads[act.sleeper], Ending(s));
      var s1 := At(s, i, s.threads[i].pc, Fewer(s.threads[i].duty.left));
      EndsMove(s, s1, i);
      EndsMove(s1, r, act.sleeper);
    } else {
      EndsMove(s, r, i);
    }
  }

  lemma EndsWaking(s: State, i: nat, act: Action)
    requires EndsOk(s) && i < |s.threads| && s.threads[i].duty.Clear?
    requires ReadyAt(s, s.threads[i].pc, act) && GroupOf(act) == OfWaking
    ensures EndsOk(MoveWaking(s, i, act))
  {
    assert EndOk(s.threads[i], Ending(s));
    EndsMove(s, MoveWaking(s, i, act), i);
  }

  lemma EndsPolling(s: State, i: nat, act: Action)
    requires EndsOk(s) && i < |s.threads| && s.threads[i].duty.Clear?
    requires ReadyAt(s, s.threads[i].pc, act) && GroupOf(act) == OfPolling
    ensures EndsOk(MovePolling(s, i, act))
  {
    assert EndOk(s.threads[i], Ending(s));
    EndsMove(s, MovePolling(s, i, act), i);
  }

  lemma EndsUser(s: State, i: nat, act: Action)
    requires EndsOk(s) && i < |s.threads| && s.threads[i].duty.Clear?
    requires ReadyAt(s, s.threads[i].pc, act) && GroupOf(act) == OfUser
    ensures EndsOk(MoveUser(s, i, act))
  {
    assert EndOk(s.threads[i], Ending(s));
    EndsMove(s, MoveUser(s, i, act), i);
  }

  lemma EndsPass(s: State, i: nat, act: Action)
    requires EndsOk(s) && i < |s.threads| && s.threads[i].duty.Clear?
    requires ReadyAt(s, s.threads[i].pc, act) && GroupOf(act) == OfPass
    ensures EndsOk(MovePass(s, i, act))
  {
    assert EndOk(s.threads[i], Ending(s));
    EndsMove(s, MovePass(s, i, act), i);
  }

  lemma EndsLook(s: State, i: nat, act: Action)
    requires EndsOk(s) && i < |s.threads| && s.threads[i].duty.Clear?
    requires ReadyAt(s, s.threads[i].pc, act) && GroupOf(act) == OfLook
    ensures EndsOk(MoveLook(s, i, act))
  {
    assert EndOk(s.threads[i], Ending(s));
    EndsMove(s, MoveLook(s, i, act), i);
  }

  lemma EndsHost(s: State, e: Event)
    requires EndsOk(s) && !e.Step?
    ensures EndsOk(Apply(s, e))
  {
    var r := Apply(s, e);
    forall j: nat | j < |r.threads| ensures EndOk(r.threads[j], Ending(r)) {
      assert EndOk(s.threads[j], Ending(s));
    }
  }

  lemma EndsStep(s: State, e: Event)
    requires EndsOk(s) && Enabled(s, e)
    ensures EndsOk(Apply(s, e))
  {
    if !e.Step? {
      EndsHost(s, e);
    } else {
      match GroupOf(e.act)
      case OfDuty => EndsDuty(s, e.i, e.act);
      case OfWaking => EndsWaking(s, e.i, e.act);
      case OfPolling => EndsPolling(s, e.i, e.act);
      case OfUser => EndsUser(s, e.i, e.act);
      case OfPass => EndsPass(s, e.i, e.act);
      case OfLook => EndsLook(s, e.i, e.act);
    }
  }

  lemma {:induction false} EndsAlways(n: nat, es: seq<Event>)
    requires IsRun(n, es)
    ensures EndsOk(After(n, es))
  {
    if es != [] {
      EndsAlways(n, es[..|es| - 1]);
      EndsStep(After(n, es[..|es| - 1]), es[|es| - 1]);
    }
  }

  // ---------------------------------------------------------------------
  // Returning
  // ---------------------------------------------------------------------

  /** In every run, a worker of the pool has returned only if the end has come. */
  lemma ReturnsOnlyAtEnd(n: nat, es: seq<Event>, i: nat)
    requires IsRun(n, es) && i < n
    requires After(n, es).threads[i].mode == Pool && After(n, es).threads[i].pc.Returned?
    ensures Ending(After(n, es))
  {
    EndsAlways(n, es);
    assert EndOk(After(n, es).threads[i], Ending(After(n, es)));
  }

  lemma RunSplit(n: nat, es: seq<Event>, e: Event)
    requires IsRun(n, es + [e])
    ensures IsRun(n, es) && NoWrap(After(n, es)) && Enabled(After(n, es), e)
    ensures After(n, es + [e]) == Apply(After(n, es), e)
  {
    assert (es + [e])[..|es + [e]| - 1] == es;
  }

  /** A thread at its loop top, or about to park, has one thing to do. */
  lemma OneWay(s: State, th: Thread, act: Action)
    requires Ready(s, th, act) && th.duty.Clear? && (th.pc.Top? || th.pc.Stalled?)
    ensures act == if th.pc.Top? then CheckExit else Stall
  {
  }

  lemma ReturnsStep(s: State, i: nat, act: Action)
    requires i < |s.threads| && Ending(s) && s.threads[i].mode == Pool
    requires (s.threads[i].pc.Top? && act == CheckExit) || (s.threads[i].pc.Stalled? && act == Stall)
    ensures MoveLook(s, i, act).threads[i].pc == Returned
  {
  }

  /** Once the end has come, a worker at its loop top or about to park returns by its own next step. */
  lemma ReturnsNext(n: nat, es: seq<Event>, i: nat, act: Action)
    requires IsRun(n, es + [Step(i, act)]) && i < n && Ending(After(n, es))
    requires var th := After(n, es).threads[i]; th.mode == Pool && (th.pc.Top? || th.pc.Stalled?)
    ensures After(n, es + [Step(i, act)]).threads[i].pc == Returned
  {
    RunSplit(n, es, Step(i, act));
    EndsAlways(n, es);
    var s := After(n, es);
    assert EndOk(s.threads[i], Ending(s));
    OneWay(s, s.threads[i], act);
    ReturnsStep(s, i, act);
    assert Apply(s, Step(i, act)) == MoveLook(s, i, act);
  }

  lemma ReleasedStep(s: State, e: Event, r: State, i: nat)
    requires Enabled(s, e) && r == Apply(s, e) && |r.threads| == |s.threads|
    requires i < |s.threads| && s.threads[i] == Thread(Pool, Sleeping, Clear) && !r.threads[i].pc.Sleeping?
    ensures r.threads[i] == Thread(Pool, Top, Clear)
  {
  }

  /** A sleeper that an event releases is a worker at its loop top, owing nothing. */
  lemma ReleasedAtTop(n: nat, es: seq<Event>, e: Event, i: nat)
    requires IsRun(n, es + [e]) && i < n
    requires After(n, es).threads[i].pc.Sleeping? && !After(n, es + [e]).threads[i].pc.Sleeping?
    ensures After(n, es + [e]).threads[i] == Thread(Pool, Top, Clear)
  {
    RunSplit(n, es, e);
    EndsAlways(n, es);
    ParkingAlways(n, es, Queue);
    var s := After(n, es);
    assert EndOk(s.threads[i], Ending(s)) && ThreadOk(s, s.threads[i]);
    ReleasedStep(s, e, After(n, es + [e]), i);
  }

  lemma WaitStep(s: State, i: nat)
    requires i < |s.threads| && s.threads[i].pc.AboutToWait?
    requires s.threads[i].pc.seen <= s.wakeWord < s.threads[i].pc.seen + TWO_32
    ensures MoveLook(s, i, Wait).threads[i].pc == if s.threads[i].pc.seen == s.wakeWord then Sleeping else Top
  {
    SmallDistance(s.threads[i].pc.seen, s.wakeWord);
  }

  lemma WaitRun(s: State, i: nat)
    requires Enabled(s, Step(i, Wait)) && NoWrap(s) && ThreadsOk(s)
    ensures s.threads[i].pc.AboutToWait?
    ensures Apply(s, Step(i, Wait)) == MoveLook(s, i, Wait)
    ensures MoveLook(s, i, Wait).threads[i].pc == if s.threads[i].pc.seen == s.wakeWord then Sleeping else Top
  {
    assert ThreadOk(s, s.threads[i]);
    WaitStep(s, i);
  }

  /** A wait puts a worker to sleep exactly when the word was not bumped since it was read. */
  lemma SleepsExactly(n: nat, es: seq<Event>, i: nat)
    requires IsRun(n, es + [Step(i, Wait)])
    ensures var s, r := After(n, es), After(n, es + [Step(i, Wait)]);
            && i < n && s.threads[i].pc.AboutToWait?
            && r.threads[i].pc == if s.threads[i].pc.seen == s.wakeWord then Sleeping else Top
  {
    RunSplit(n, es, Step(i, Wait));
    ParkingAlways(n, es, Queue);
    WaitRun(After(n, es), i);
  }

  // ---------------------------------------------------------------------
  // Not sleeping again
  // ---------------------------------------------------------------------

  lemma AwakeDuty(s: State, k: nat, act: Action, i: nat)
    requires k < |s.threads| && Ready(s, s.threads[k], act) && GroupOf(act) == OfDuty
    requires i < |s.threads| && !MaySleep(s.threads[i].pc)
    ensures !MaySleep(MoveDuty(s, k, act).threads[i].pc)
  {
  }

  lemma AwakeWaking(s: State, k: nat, act: Action, i: nat)
    requires Ending(s) && k < |s.threads| && ReadyAt(s, s.threads[k].pc, act) && GroupOf(act) == OfWaking
    requires i < |s.threads| && !MaySleep(s.threads[i].pc)
    ensures !MaySleep(MoveWaking(s, k, act).threads[i].pc)
  {
  }

  lemma AwakePolling(s: State, k: nat, act: Action, i: nat)
    requires Ending(s) && k < |s.threads| && ReadyAt(s, s.threads[k].pc, act) && GroupOf(act) == OfPolling
    requires i < |s.threads| && !MaySleep(s.threads[i].pc)
    ensures !MaySleep(MovePolling(s, k, act).threads[i].pc)
  {
  }

  lemma AwakeUser(s: State, k: nat, act: Action, i: nat)
    requires Ending(s) && k < |s.threads| && ReadyAt(s, s.threads[k].pc, act) && GroupOf(act) == OfUser
    requires i < |s.threads| && !MaySleep(s.threads[i].pc)
    ensures !MaySleep(MoveUser(s, k, act).threads[i].pc)
  {
  }

  lemma AwakePass(s: State, k: nat, act: Action, i: nat)
    requires Ending(s) && k < |s.threads| && ReadyAt(s, s.threads[k].pc, act) && GroupOf(act) == OfPass
    requires i < |s.threads| && !MaySleep(s.threads[i].pc)
    ensures !MaySleep(MovePass(s, k, act).threads[i].pc)
  {
  }

  lemma AwakeLook(s: State, k: nat, act: Action, i: nat)
    requires Ending(s) && k < |s.threads| && ReadyAt(s, s.threads[k].pc, act) && GroupOf(act) == OfLook
    requires i < |s.threads| && !MaySleep(s.threads[i].pc)
    ensures !MaySleep(MoveLook(s, k, act).threads[i].pc)
  {
  }

  lemma AwakeStep(s: State, e: Event, r: State, i: nat)
    requires Enabled(s, e) && r == Apply(s, e) && |r.threads| == |s.threads|
    requires Ending(s) && i < |s.threads| && !MaySleep(s.threads[i].pc)
    ensures !MaySleep(r.threads[i].pc)
  {
    if e.Step? {
      match GroupOf(e.act)
      case OfDuty => AwakeDuty(s, e.i, e.act, i);
      case OfWaking => AwakeWaking(s, e.i, e.act, i);
      case OfPolling => AwakePolling(s, e.i, e.act, i);
      case OfUser => AwakeUser(s, e.i, e.act, i);
      case OfPass => AwakePass(s, e.i, e.act, i);
      case OfLook => AwakeLook(s, e.i, e.act, i);
    }
  }

  /**
   From the end on, a thread that is not asleep or on its way to sleep never
   sleeps again, whatever happens: not even if it leaves and enters the pool anew.
   */
  lemma {:induction false} NeverSleepsAgain(n: nat, es: seq<Event>, fs: seq<Event>, i: nat)
    requires IsRun(n, es + fs) && i < n && Ending(After(n, es)) && !MaySleep(After(n, es).threads[i].pc)
    ensures Ending(After(n, es + fs)) && !MaySleep(After(n, es + fs).threads[i].pc)
    decreases |fs|
  {
    if fs == [] {
      assert es + fs == es;
    } else {
      var before := es + fs[..|fs| - 1];
      assert before + [fs[|fs| - 1]] == es + fs;
      RunSplit(n, before, fs[|fs| - 1]);
      NeverSleepsAgain(n, es, fs[..|fs| - 1], i);
      EndingStays(After(n, before), fs[|fs| - 1], After(n, es + fs));
      AwakeStep(After(n, before), fs[|fs| - 1], After(n, es + fs), i);
    }
  }

  // ---------------------------------------------------------------------
  // The last signal
  // ---------------------------------------------------------------------

  /** How many threads are asleep or on their way. */
  function Drowsy(threads: seq<Thread>): nat {
    if threads == [] then 0 else (if MaySleep(threads[0].pc) then 1 else 0) + Drowsy(threads[1..])
  }

  lemma {:induction false} DrowsyUpdate(threads: seq<Thread>, i: nat, th: Thread)
    requires i < |threads|
    ensures Drowsy(threads[i := th]) + (if MaySleep(threads[i].pc) then 1 else 0)
            == Drowsy(threads) + if MaySleep(th.pc) then 1 else 0
  {
    if i == 0 {
      assert threads[0 := th][1..] == threads[1..];
    } else {
      DrowsyUpdate(threads[1..], i - 1, th);
      assert threads[i := th][1..] == threads[1..][i - 1 := th];
    }
  }

  lemma {:induction false} DrowsySome(threads: seq<Thread>, i: nat)
    requires i < |threads| && MaySleep(threads[i].pc)
    ensures Drowsy(threads) > 0
  {
    if i > 0 {
      DrowsySome(threads[1..], i - 1);
    }
  }

  lemma {:induction false} DrowsyActive(threads: seq<Thread>)
    requires forall i | 0 <= i < |threads| :: MaySleep(threads[i].pc) ==> threads[i].mode == Pool
    ensures Drowsy(threads) <= Active(threads)
  {
    if threads != [] {
      assert forall i | 0 <= i < |threads[1..]| :: threads[1..][i] == threads[i + 1];
      DrowsyActive(threads[1..]);
    }
  }

  lemma DrowsyMove(s: State, r: State, i: nat)
    requires i < |s.threads| && OnlyThread(s, r, i) && (MaySleep(r.threads[i].pc) ==> MaySleep(s.threads[i].pc))
    ensures Drowsy(r.threads) <= Drowsy(s.threads)
  {
    DrowsyUpdate(s.threads, i, r.threads[i]);
    assert r.threads == s.threads[i := r.threads[i]];
  }

  /** A notify that finds a sleeper leaves one thread fewer that may sleep. */
  lemma DrowsyNotify(s: State, j: nat, w: nat)
    requires j < |s.threads| && Ready(s, s.threads[j], DoNotify(w)) && AnySleeping(s)
    ensures Drowsy(MoveDuty(s, j, DoNotify(w)).threads) + 1 == Drowsy(s.threads)
  {
    var s1 := At(s, j, s.threads[j].pc, Fewer(s.threads[j].duty.left));
    DrowsyUpdate(s.threads, j, s1.threads[j]);
    DrowsyUpdate(s1.threads, w, MoveDuty(s, j, DoNotify(w)).threads[w]);
  }

  lemma DrowsyWaking(s: State, i: nat, act: Action)
    requires Ending(s) && i < |s.threads| && ReadyAt(s, s.threads[i].pc, act) && GroupOf(act) == OfWaking
    ensures Drowsy(MoveWaking(s, i, act).threads) <= Drowsy(s.threads)
  {
    if !MaySleep(s.threads[i].pc) {
      AwakeWaking(s, i, act, i);
    }
    DrowsyMove(s, MoveWaking(s, i, act), i);
  }

  lemma DrowsyPolling(s: State, i: nat, act: Action)
    requires Ending(s) && i < |s.threads| && ReadyAt(s, s.threads[i].pc, act) && GroupOf(act) == OfPolling
    ensures Drowsy(MovePolling(s, i, act).threads) <= Drowsy(s.threads)
  {
    if !MaySleep(s.threads[i].pc) {
      AwakePolling(s, i, act, i);
    }
    DrowsyMove(s, MovePolling(s, i, act), i);
  }

  lemma DrowsyUser(s: State, i: nat, act: Action)
    requires Ending(s) && i < |s.threads| && ReadyAt(s, s.threads[i].pc, act) && GroupOf(act) == OfUser
    ensures Drowsy(MoveUser(s, i, act).threads) <= Drowsy(s.threads)
  {
    if !MaySleep(s.threads[i].pc) {
      AwakeUser(s, i, act, i);
    }
    DrowsyMove(s, MoveUser(s, i, act), i);
  }

  lemma DrowsyPass(s: State, i: nat, act: Action)
    requires Ending(s) && i < |s.threads| && ReadyAt(s, s.threads[i].pc, act) && GroupOf(act) == OfPass
    ensures Drowsy(MovePass(s, i, act).threads) <= Drowsy(s.threads)
  {
    if !MaySleep(s.threads[i].pc) {
      AwakePass(s, i, act, i);
    }
    DrowsyMove(s, MovePass(s, i, act), i);
  }

  lemma DrowsyLook(s: State, i: nat, act: Action)
    requires Ending(s) && i < |s.threads| && ReadyAt(s, s.threads[i].pc, act) && GroupOf(act) == OfLook
    ensures Drowsy(MoveLook(s, i, act).threads) <= Drowsy(s.threads)
  {
    if !MaySleep(s.threads[i].pc) {
      AwakeLook(s, i, act, i);
    }
    DrowsyMove(s, MoveLook(s, i, act), i);
  }

  lemma DrowsyDuty(s: State, i: nat, act: Action)
    requires i < |s.threads| && Ready(s, s.threads[i], act) && GroupOf(act) == OfDuty && !act.DoNotify?
    ensures Drowsy(MoveDuty(s, i, act).threads) <= Drowsy(s.threads)
  {
    DrowsyMove(s, MoveDuty(s, i, act), i);
  }

  /** Once the end has come, no step adds a thread that may sleep. */
  lemma DrowsyStep(s: State, e: Event, r: State)
    requires Enabled(s, e) && r == Apply(s, e) && Ending(s) && !(e.Step? && e.act.DoNotify?)
    ensures Drowsy(r.threads) <= Drowsy(s.threads)
  {
    if e.Step? {
      match GroupOf(e.act)
      case OfDuty => DrowsyDuty(s, e.i, e.act);
      case OfWaking => DrowsyWaking(s, e.i, e.act);
      case OfPolling => DrowsyPolling(s, e.i, e.act);
      case OfUser => DrowsyUser(s, e.i, e.act);
      case OfPass => DrowsyPass(s, e.i, e.act);
      case OfLook => DrowsyLook(s, e.i, e.act);
    }
  }

  /** Thread `j` still owes a notify for every thread that may sleep. */
  predicate Covering(s: State, j: nat) {
    && Ending(s) && j < |s.threads| && !MaySleep(s.threads[j].pc)
    && s.threads[j].duty.Notify? && s.threads[j].duty.left >= Drowsy(s.threads)
  }

  lemma CoveringNotify(s: State, k: nat, w: nat, j: nat, i: nat)
    requires Covering(s, j) && k < |s.threads| && Ready(s, s.threads[k], DoNotify(w))
    requires i < |s.threads| && s.threads[i].pc.Sleeping? && MoveDuty(s, k, DoNotify(w)).threads[i].pc.Sleeping?
    ensures Covering(MoveDuty(s, k, DoNotify(w)), j)
  {
    assert AnySleeping(s);
    DrowsyNotify(s, k, w);
    DrowsySome(MoveDuty(s, k, DoNotify(w)).threads, i);
  }

  /** Only its own notifies change what thread `j` owes. */
  lemma OwesOn(s: State, e: Event, r: State, j: nat)
    requires Enabled(s, e) && r == Apply(s, e) && |r.threads| == |s.threads| && !(e.Step? && e.act.DoNotify?)
    requires j < |s.threads| && s.threads[j].duty.Notify?
    ensures r.threads[j] == s.threads[j]
  {
  }

  lemma CoveringStep(s: State, e: Event, r: State, j: nat, i: nat)
    requires Covering(s, j) && Enabled(s, e) && r == Apply(s, e) && |r.threads| == |s.threads|
    requires i < |s.threads| && s.threads[i].pc.Sleeping? && r.threads[i].pc.Sleeping?
    ensures Covering(r, j)
  {
    if e.Step? && e.act.DoNotify? {
      CoveringNotify(s, e.i, e.act.sleeper, j, i);
    } else {
      OwesOn(s, e, r, j);
      EndingStays(s, e, r);
      DrowsyStep(s, e, r);
    }
  }

  /** The thread sleeps in every state from `pre` to the end of `fs`. */
  ghost predicate SleepsThroughout(n: nat, pre: seq<Event>, fs: seq<Event>, i: nat)
    decreases |fs|
  {
    && i < n && After(n, pre + fs).threads[i].pc.Sleeping?
    && (fs == [] || SleepsThroughout(n, pre, fs[..|fs| - 1], i))
  }

  lemma CountCovers(n: nat, es: seq<Event>, j: nat, i: nat)
    requires IsRun(n, es + [Step(j, DoCount)]) && i < n && After(n, es).threads[i].pc.Sleeping?
    ensures Covering(After(n, es + [Step(j, DoCount)]), j)
  {
    RunSplit(n, es, Step(j, DoCount));
    EndsAlways(n, es);
    ParkingAlways(n, es, Queue);
    var s := After(n, es);
    assert EndOk(s.threads[j], Ending(s));
    assert forall k: nat | k < |s.threads| :: ThreadOk(s, s.threads[k]);
    DrowsyActive(s.threads);
    DrowsySome(s.threads, i);
    DrowsyMove(s, MoveDuty(s, j, DoCount), j);
  }

  /**
   The last signal reaches every sleeping worker: one that sleeps when the active
   workers are counted cannot sleep on until the notifies are all delivered.
   */
  lemma {:induction false} LastSignalReachesAll(n: nat, es: seq<Event>, j: nat, fs: seq<Event>, i: nat)
    requires IsRun(n, es + [Step(j, DoCount)] + fs) && i < n && After(n, es).threads[i].pc.Sleeping?
    requires SleepsThroughout(n, es + [Step(j, DoCount)], fs, i)
    ensures Covering(After(n, es + [Step(j, DoCount)] + fs), j)
    decreases |fs|
  {
    var pre := es + [Step(j, DoCount)];
    if fs == [] {
      assert pre + fs == pre;
      CountCovers(n, es, j, i);
    } else {
      var before := pre + fs[..|fs| - 1];
      assert before + [fs[|fs| - 1]] == pre + fs;
      RunSplit(n, before, fs[|fs| - 1]);
      LastSignalReachesAll(n, es, j, fs[..|fs| - 1], i);
      CoveringStep(After(n, before), fs[|fs| - 1], After(n, pre + fs), j, i);
    }
  }
}
