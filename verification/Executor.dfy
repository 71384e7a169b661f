/**
 The guest executor as a transition system.

 Each event is one atomic section of the source: a task-table critical section,
 one operation on the run queue or the yield queue, or one access to the shared
 wake word. Any number of threads interleave their events freely. `Thread.pc`
 says where in `worker_loop` (or in the bootstrap pass) a thread is, and
 `Thread.duty` what it still owes of `enqueue_and_notify`.

 Parking words and the wake word are 32-bit counters in the source. Here they
 are kept as unbounded counts and compared modulo 2^32, so wrap-around is part
 of the model.
 */
module Executor {
  import opened Common

  type TaskId = nat

  datatype TaskState = Parked | Queued | Polling

  /**
   A task slot. `wakes` counts the bumps of the parking word. `claimedAt` and
   `holder` are history: the count at the last claim and the claiming thread.
   `future` is false exactly while the future is taken out of the table.
   */
  datatype Slot = Slot(state: TaskState, wakes: nat, claimedAt: nat, holder: nat, future: bool)

  /**
   What a thread still has to do of `enqueue_and_notify`, or of the signal that
   the poll owner is done: that one counts the active workers after its bump and
   notifies once for each.
   */
  datatype Duty = Clear | Push(task: TaskId) | Bump(last: bool) | Count | Notify(left: nat)

  /** How a thread drives the executor. `Pool` is `park_when_empty`. */
  datatype Mode = Guest | Coop | Pool

  datatype Pc =
    | Outside                                       // not in the executor
    | Top                                           // loop top: exit check
    | DrainStart                                    // about to lock the mailbox
    | Draining(rest: seq<TaskId>, taken: nat)       // waking drained entries
    | BootClaim                                     // bootstrap: `pop_specific`
    | Popping                                       // `pop_runnable`: pop an id
    | Popped(id: TaskId)                            // popped, not yet claimed
    | Claimed(task: TaskId, baseline: nat)          // claimed, future in place
    | InPoll(task: TaskId, baseline: nat)           // future taken, polling
    | CheckQueue                                    // `run_queue_non_empty`
    | CheckMail                                     // `mailbox_has_pending`
    | TakeYields                                    // drain the yield queue
    | Yielding(left: seq<TaskId>)                   // applying drained yields
    | Stalled                                       // nothing yielded
    | Observe                                       // read the wake word
    | RecheckQueue(seen: nat)
    | RecheckMail(seen: nat)
    | AboutToWait(seen: nat)
    | Sleeping
    | Returned                                      // `worker_loop` returned

  datatype Thread = Thread(mode: Mode, pc: Pc, duty: Duty)

  /** The state around the task table: yields, host mailbox, poll owner, stop word. */
  datatype Rest = Rest(
    yieldQueue: seq<TaskId>,
    mail: seq<TaskId>,
    mailLock: Option<nat>,
    owner: TaskId,
    done: bool,
    stop: bool)

  /**
   History: whether `pop_specific` was ever used, whether the host ever enqueued
   a wake without signalling the wake word (as it does for cooperative guests),
   the tasks that yielded since the last entry, the yields taken by the last
   drain of the yield queue, and the host wakes since the last mailbox check.
   */
  datatype History = History(
    specific: bool,
    unsignalled: bool,
    passYields: set<TaskId>,
    applied: set<TaskId>,
    sinceCheck: seq<TaskId>)

  datatype State = State(
    tasks: map<TaskId, Slot>,
    queue: seq<TaskId>,
    wakeWord: nat,
    nextId: nat,
    threads: seq<Thread>,
    rest: Rest,
    past: History)

  /** What a thread does in one atomic section. */
  datatype Action =
    | Enter(mode: Mode)
    | Leave
    | Wake(t: TaskId)
    | Spawn(owner: bool)
    | HostSend(t: TaskId)
    | Signal
    | DoPush
    | DoBump
    | DoCount
    | DoNotify(sleeper: nat)
    | CheckExit
    | DrainBegin
    | DrainWake
    | DrainEnd
    | PopSpecific
    | Pop
    | Claim
    | TakeFuture
    | YieldNow
    | OwnerDone
    | FinishReady
    | FinishPending
    | LookQueue
    | LookMail
    | DrainYields
    | ApplyYield
    | YieldsDone
    | Stall
    | ReadWord
    | RelookQueue
    | RelookMail
    | Wait
    | Timeout

  datatype Event = HostWake(t: TaskId) | HostStop | Step(i: nat, act: Action)

  // ---------------------------------------------------------------------
  // Effects of the critical sections
  // ---------------------------------------------------------------------

  /** The task table after `wake_task(t)`. */
  function WakeSlot(tasks: map<TaskId, Slot>, t: TaskId): map<TaskId, Slot> {
    if t == 0 || t !in tasks then tasks
    else
      var slot := tasks[t];
      var state := if slot.state == Parked then Queued else slot.state;
      tasks[t := slot.(state := state, wakes := slot.wakes + 1)]
  }

  /** What the waker owes after `wake_task(t)`: an enqueue if the task was parked. */
  function WakeDuty(tasks: map<TaskId, Slot>, t: TaskId): Duty {
    if t != 0 && t in tasks && tasks[t].state == Parked then Push(t) else Clear
  }

  /** A task can be claimed by compare-and-swap QUEUED to POLLING. */
  predicate Claimable(tasks: map<TaskId, Slot>, t: TaskId) {
    t in tasks && tasks[t].state == Queued
  }

  function ClaimSlot(tasks: map<TaskId, Slot>, t: TaskId, i: nat): map<TaskId, Slot>
    requires Claimable(tasks, t)
  {
    tasks[t := tasks[t].(state := Polling, claimedAt := tasks[t].wakes, holder := i)]
  }

  /** The re-check of `poll_task`: the 32-bit word differs from the baseline. */
  predicate WordMoved(slot: Slot, baseline: nat) {
    slot.wakes % TWO_32 != baseline % TWO_32
  }

  /** The slot after a pending poll: re-parked, and re-queued if the word moved. */
  function ParkSlot(slot: Slot, baseline: nat): Slot {
    slot.(state := if WordMoved(slot, baseline) then Queued else Parked, future := true)
  }

  /** `apply_yield_queue` moves a parked task to queued and leaves its own word. */
  function YieldSlot(tasks: map<TaskId, Slot>, t: TaskId): map<TaskId, Slot> {
    if t in tasks && tasks[t].state == Parked then tasks[t := tasks[t].(state := Queued)] else tasks
  }

  function YieldDuty(tasks: map<TaskId, Slot>, t: TaskId): Duty {
    if t in tasks && tasks[t].state == Parked then Push(t) else Clear
  }

  // ---------------------------------------------------------------------
  // The transition relation
  // ---------------------------------------------------------------------

  function Init(n: nat): State {
    State(map[], [], 0, 1, seq(n, _ => Thread(Guest, Outside, Clear)),
          Rest([], [], None, 0, false, false), History(false, false, {}, {}, []))
  }

  function At(s: State, i: nat, pc: Pc, duty: Duty): (r: State)
    requires i < |s.threads|
    ensures OnlyThread(s, r, i)
  {
    Put(s, i, s.threads[i].(pc := pc, duty := duty))
  }

  function Put(s: State, i: nat, th: Thread): (r: State)
    requires i < |s.threads|
    ensures OnlyThread(s, r, i)
  {
    s.(threads := s.threads[i := th])
  }

  /** The two states differ in no thread but `i`. */
  predicate OnlyThread(s: State, r: State, i: nat)
    requires i < |s.threads|
  {
    |r.threads| == |s.threads|
    && forall j: nat | j < |s.threads| && j != i :: r.threads[j] == s.threads[j]
  }

  /** Code that can call wakers, spawn and yield: outside callers and futures. */
  predicate UserCode(pc: Pc) {
    pc.Outside? || pc.InPoll?
  }

  predicate AnySleeping(s: State) {
    exists j | 0 <= j < |s.threads| :: s.threads[j].pc.Sleeping?
  }

  predicate Enabled(s: State, e: Event) {
    // Written as an equation, since the verifier would expand a bare call at every use.
    e.Step? ==> e.i < |s.threads| && Ready(s, s.threads[e.i], e.act) == true
  }

  predicate Ready(s: State, th: Thread, act: Action) {
    match act
    case DoPush => th.duty.Push?
    case DoBump => th.duty.Bump?
    case DoCount => th.duty.Count?
    case DoNotify(w) =>
      && th.duty.Notify?
      && if AnySleeping(s) then w < |s.threads| && s.threads[w].pc.Sleeping? else w == |s.threads|
    case _ => th.duty.Clear? && ReadyAt(s, th.pc, act) == true
  }

  predicate ReadyAt(s: State, pc: Pc, act: Action) {
    match act
    case Enter(_) => pc.Outside?
    case Leave => pc.Returned?
    case Wake(_) => UserCode(pc)
    case Spawn(owner) => UserCode(pc) && s.nextId < TWO_32 && (owner ==> s.rest.owner == 0)
    case HostSend(_) => pc.Outside?
    case Signal => UserCode(pc)
    case CheckExit => pc.Top?
    case DrainBegin => pc.DrainStart? && s.rest.mailLock.None?
    case DrainWake => pc.Draining? && pc.rest != []
    case DrainEnd => pc.Draining? && pc.rest == []
    case PopSpecific => pc.BootClaim?
    case Pop => pc.Popping?
    case Claim => pc.Popped?
    case TakeFuture => pc.Claimed?
    case YieldNow => pc.InPoll?
    case OwnerDone => pc.InPoll? && pc.task == s.rest.owner
    case FinishReady => pc.InPoll? && (pc.task == s.rest.owner ==> s.rest.done)
    case FinishPending => pc.InPoll?
    case LookQueue => pc.CheckQueue?
    case LookMail => pc.CheckMail?
    case DrainYields => pc.TakeYields?
    case ApplyYield => pc.Yielding? && pc.left != []
    case YieldsDone => pc.Yielding? && pc.left == []
    case Stall => pc.Stalled?
    case ReadWord => pc.Observe?
    case RelookQueue => pc.RecheckQueue?
    case RelookMail => pc.RecheckMail?
    case Wait => pc.AboutToWait?
    case Timeout => pc.Sleeping?
    case _ => false
  }

  /** Where a thread goes once its poll is over: a worker keeps popping. */
  function AfterPoll(mode: Mode): Pc {
    if mode == Guest then TakeYields else Popping
  }

  /** The host appends a task id to the mailbox. */
  function HostMail(s: State, t: TaskId): State {
    s.(rest := s.rest.(mail := s.rest.mail + [t]),
       past := s.past.(sinceCheck := s.past.sinceCheck + [t]))
  }

  function Elements(q: seq<TaskId>): set<TaskId> {
    set t | t in q
  }

  function Apply(s: State, e: Event): State
    requires Enabled(s, e)
  {
    match e
    case HostWake(t) =>
      var r := HostMail(s, t);
      r.(past := r.past.(unsignalled := true))
    case HostStop => s.(rest := s.rest.(stop := true))
    case Step(i, act) => Move(s, i, act)
  }

  /** The groups of actions, by the part of the source they come from. */
  datatype Group = OfDuty | OfWaking | OfPolling | OfUser | OfPass | OfLook

  function GroupOf(act: Action): Group {
    match act
    case DoPush | DoBump | DoCount | DoNotify(_) => OfDuty
    case Wake(_) | DrainWake | ApplyYield | Spawn(_) => OfWaking
    case PopSpecific | Claim | TakeFuture | FinishReady | FinishPending => OfPolling
    case Enter(_) | Leave | HostSend(_) | Signal | YieldNow | OwnerDone => OfUser
    case DrainBegin | DrainEnd | Pop | LookMail | DrainYields => OfPass
    case _ => OfLook
  }

  function Move(s: State, i: nat, act: Action): State
    requires i < |s.threads| && Ready(s, s.threads[i], act)
  {
    match GroupOf(act)
    case OfDuty => MoveDuty(s, i, act)
    case OfWaking => MoveWaking(s, i, act)
    case OfPolling => MovePolling(s, i, act)
    case OfUser => MoveUser(s, i, act)
    case OfPass => MovePass(s, i, act)
    case OfLook => MoveLook(s, i, act)
  }

  /** The workers inside the executor, cooperative or of the pool. */
  function Active(threads: seq<Thread>): nat {
    if threads == [] then 0 else (if threads[0].mode == Guest then 0 else 1) + Active(threads[1..])
  }

  /** What is left after one of `left` notifies. */
  function Fewer(left: nat): Duty {
    if left <= 1 then Clear else Notify(left - 1)
  }

  /** The parts of `enqueue_and_notify` and of the last signal. A notify releases one sleeper. */
  function MoveDuty(s: State, i: nat, act: Action): State
    requires i < |s.threads| && Ready(s, s.threads[i], act) && GroupOf(act) == OfDuty
  {
    var pc, duty := s.threads[i].pc, s.threads[i].duty;
    match act
    case DoPush => At(s, i, pc, Bump(false)).(queue := s.queue + [duty.task])
    case DoBump => At(s, i, pc, if duty.last then Count else Notify(1)).(wakeWord := s.wakeWord + 1)
    case DoCount => At(s, i, pc, if Active(s.threads) == 0 then Clear else Notify(Active(s.threads)))
    case DoNotify(w) =>
      var s1 := At(s, i, pc, Fewer(duty.left));
      if w < |s.threads| then At(s1, w, Top, s1.threads[w].duty) else s1
  }

  /** Task-table sections that make tasks runnable. */
  function MoveWaking(s: State, i: nat, act: Action): (r: State)
    requires i < |s.threads| && ReadyAt(s, s.threads[i].pc, act) && GroupOf(act) == OfWaking
    ensures OnlyThread(s, r, i)
  {
    var pc := s.threads[i].pc;
    match act
    case Wake(t) => At(s, i, pc, WakeDuty(s.tasks, t)).(tasks := WakeSlot(s.tasks, t))
    case DrainWake =>
      At(s, i, pc.(rest := pc.rest[1..]), WakeDuty(s.tasks, pc.rest[0])).(
        tasks := WakeSlot(s.tasks, pc.rest[0]))
    case ApplyYield =>
      At(s, i, Yielding(pc.left[1..]), YieldDuty(s.tasks, pc.left[0])).(
        tasks := YieldSlot(s.tasks, pc.left[0]))
    case Spawn(owner) =>
      At(s, i, pc, Push(s.nextId)).(
        tasks := s.tasks[s.nextId := Slot(Queued, 0, 0, 0, true)],
        nextId := s.nextId + 1,
        rest := s.rest.(owner := if owner then s.nextId else s.rest.owner))
  }

  /** Task-table sections of claiming and polling. */
  function MovePolling(s: State, i: nat, act: Action): (r: State)
    requires i < |s.threads| && ReadyAt(s, s.threads[i].pc, act) && GroupOf(act) == OfPolling
    ensures OnlyThread(s, r, i)
  {
    var mode, pc := s.threads[i].mode, s.threads[i].pc;
    match act
    case PopSpecific =>
      if s.rest.owner != 0 && Claimable(s.tasks, s.rest.owner) then
        At(s, i, Claimed(s.rest.owner, s.tasks[s.rest.owner].wakes), Clear).(
          tasks := ClaimSlot(s.tasks, s.rest.owner, i), past := s.past.(specific := true))
      else At(s, i, TakeYields, Clear)
    case Claim =>
      if Claimable(s.tasks, pc.id) then
        At(s, i, Claimed(pc.id, s.tasks[pc.id].wakes), Clear).(tasks := ClaimSlot(s.tasks, pc.id, i))
      else At(s, i, Popping, Clear)
    case TakeFuture =>
      if pc.task in s.tasks then
        At(s, i, InPoll(pc.task, pc.baseline), Clear).(
          tasks := s.tasks[pc.task := s.tasks[pc.task].(future := false)])
      else At(s, i, AfterPoll(mode), Clear)
    case FinishReady => At(s, i, AfterPoll(mode), Clear).(tasks := s.tasks - {pc.task})
    case FinishPending =>
      if pc.task in s.tasks then
        At(s, i, AfterPoll(mode),
           if WordMoved(s.tasks[pc.task], pc.baseline) then Push(pc.task) else Clear).(
          tasks := s.tasks[pc.task := ParkSlot(s.tasks[pc.task], pc.baseline)])
      else At(s, i, AfterPoll(mode), Clear)
  }

  /** Entering and leaving the executor, host wakes and what futures do. */
  function MoveUser(s: State, i: nat, act: Action): (r: State)
    requires i < |s.threads| && ReadyAt(s, s.threads[i].pc, act) && GroupOf(act) == OfUser
    ensures OnlyThread(s, r, i)
  {
    var pc := s.threads[i].pc;
    match act
    case Enter(m) =>
      Put(s, i, Thread(m, if m == Guest then DrainStart else Top, Clear)).(
        past := s.past.(passYields := {}))
    case Leave => Put(s, i, Thread(Guest, Outside, Clear))
    case HostSend(t) => At(HostMail(s, t), i, pc, Bump(false))
    case Signal => At(s, i, pc, Bump(false))
    case YieldNow =>
      s.(rest := s.rest.(yieldQueue := s.rest.yieldQueue + [pc.task]),
         past := s.past.(passYields := s.past.passYields + {pc.task}))
    case OwnerDone => At(s, i, pc, Bump(true)).(rest := s.rest.(done := true))
  }

  /** The steps of one pass of the loop that touch the queues. */
  function MovePass(s: State, i: nat, act: Action): (r: State)
    requires i < |s.threads| && ReadyAt(s, s.threads[i].pc, act) && GroupOf(act) == OfPass
    ensures OnlyThread(s, r, i)
  {
    var mode, pc := s.threads[i].mode, s.threads[i].pc;
    match act
    case DrainBegin =>
      At(s, i, Draining(s.rest.mail, |s.rest.mail|), Clear).(
        rest := s.rest.(mailLock := Some(i)))
    case DrainEnd =>
      At(s, i, if mode == Guest then BootClaim else Popping, Clear).(
        rest := s.rest.(
          mail := if pc.taken <= |s.rest.mail| then s.rest.mail[pc.taken..] else [],
          mailLock := None))
    case Pop =>
      if s.queue == [] then At(s, i, CheckQueue, Clear)
      else At(s, i, Popped(s.queue[0]), Clear).(queue := s.queue[1..])
    case LookMail =>
      if s.rest.mail != [] then At(s, i, Top, Clear)
      else At(s, i, TakeYields, Clear).(past := s.past.(sinceCheck := []))
    case DrainYields =>
      At(s, i, if s.rest.yieldQueue == [] then Stalled else Yielding(s.rest.yieldQueue), Clear).(
        rest := s.rest.(yieldQueue := []),
        past := s.past.(applied := Elements(s.rest.yieldQueue)))
  }

  /** The steps that change nothing but where the thread is. */
  function MoveLook(s: State, i: nat, act: Action): (r: State)
    requires i < |s.threads| && ReadyAt(s, s.threads[i].pc, act) && GroupOf(act) == OfLook
    ensures OnlyThread(s, r, i)
  {
    At(s, i, NextPc(s, s.threads[i].mode, s.threads[i].pc, act), Clear)
  }

  function NextPc(s: State, mode: Mode, pc: Pc, act: Action): Pc
    requires ReadyAt(s, pc, act) && GroupOf(act) == OfLook
  {
    match act
    case CheckExit => if mode == Pool && (s.rest.stop || s.rest.done) then Returned else DrainStart
    case LookQueue => if s.queue != [] then Top else CheckMail
    case YieldsDone => if mode == Pool then Top else Returned
    case Stall => if mode != Pool || s.rest.stop || s.rest.done then Returned else Observe
    case ReadWord => RecheckQueue(s.wakeWord)
    case RelookQueue => if s.queue != [] then Top else RecheckMail(pc.seen)
    case RelookMail => if s.rest.mail != [] then Top else AboutToWait(pc.seen)
    case Wait => if s.wakeWord % TWO_32 == pc.seen % TWO_32 then Sleeping else Top
    case Timeout => Top
  }

  // ---------------------------------------------------------------------
  // Runs
  // ---------------------------------------------------------------------

  /**
   No 32-bit counter wraps inside one window: fewer than 2^32 wakes during one
   poll of a task, and fewer than 2^32 bumps between a worker's observation of
   the wake word and its wait.
   */
  ghost predicate NoWrap(s: State) {
    && (forall t | t in s.tasks && s.tasks[t].state == Polling ::
          s.tasks[t].wakes < s.tasks[t].claimedAt + TWO_32)
    && (forall i | 0 <= i < |s.threads| && s.threads[i].pc.AboutToWait? ::
          s.wakeWord < s.threads[i].pc.seen + TWO_32)
  }

  /** The events `es` are a run of `n` threads in which no counter wraps. */
  ghost predicate IsRun(n: nat, es: seq<Event>) {
    es == []
    || (var p := es[..|es| - 1];
        IsRun(n, p) && NoWrap(After(n, p)) && Enabled(After(n, p), es[|es| - 1]))
  }

  ghost function After(n: nat, es: seq<Event>): (s: State)
    ensures |s.threads| == n
  {
    if es == [] then Init(n)
    else
      var s := After(n, es[..|es| - 1]);
      if Enabled(s, es[|es| - 1]) then Apply(s, es[|es| - 1]) else s
  }
}
