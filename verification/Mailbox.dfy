/**
 The wake mailbox shared by host and guest: a ring of 32 task ids indexed by
 free-running 32-bit head and tail words.

 The first part is the ring under every interleaving of the host's `enqueue`
 (single producer) with the guest's `drain_mailbox` (single consumer), one load
 or store per event. The second part is the word array as the code updates it.
 */
module Mailbox {
  import opened Common

  type Word = w: nat | w < TWO_32

  const CAPACITY := 32

  /** `u32::wrapping_add` and `u32::wrapping_sub`. */
  function WrapAdd(a: Word, b: Word): Word { (a + b) % TWO_32 }

  function WrapSub(a: Word, b: Word): Word { (a - b) % TWO_32 }

  function ToWord(n: nat): Word { n % TWO_32 }

  // ---------------------------------------------------------------------
  // The ring under interleaving
  // ---------------------------------------------------------------------

  /** Where `drain_mailbox` is. The words are its local copies of head and tail. */
  datatype Consumer =
    | Idle
    | HeadRead(head: Word)
    | Draining(head: Word, tail: Word)
    | Publishing(head: Word)
    | Clearing

  /** Where `enqueue` is. */
  datatype Producer =
    | Ready
    | HeadSeen(id: Word, head: Word)
    | SlotFree(id: Word, tail: Word)
    | SlotWritten(id: Word, tail: Word)
    | TailStored

  /**
   The mailbox words with both actors. `sent` and `woken` are history: the ids
   whose enqueue was accepted, and the ids handed to `wake_task`.
   */
  datatype Ring = Ring(head: Word, tail: Word, flag: Word, slots: seq<Word>,
                       consumer: Consumer, producer: Producer,
                       past: RingHistory)

  /** `published` is the count of entries the head word accounts for. */
  datatype RingHistory = RingHistory(sent: seq<Word>, woken: seq<Word>, published: nat)

  datatype RingEvent =
    | ReadHead | ReadTail | WakeOne | LeaveLoop | PublishHead | ClearFlag
    | SeeHead(id: Word) | CheckFull | WriteSlot | StoreTail | SetFlag

  function RingInit(): Ring {
    Ring(0, 0, 0, seq(CAPACITY, _ => 0), Idle, Ready, RingHistory([], [], 0))
  }

  predicate RingEnabled(r: Ring, e: RingEvent) {
    && |r.slots| == CAPACITY
    && match e
       case ReadHead => r.consumer.Idle?
       case ReadTail => r.consumer.HeadRead?
       case WakeOne => r.consumer.Draining? && r.consumer.head != r.consumer.tail
       case LeaveLoop => r.consumer.Draining? && r.consumer.head == r.consumer.tail
       case PublishHead => r.consumer.Publishing?
       case ClearFlag => r.consumer.Clearing?
       case SeeHead(_) => r.producer.Ready?
       case CheckFull => r.producer.HeadSeen?
       case WriteSlot => r.producer.SlotFree?
       case StoreTail => r.producer.SlotWritten?
       case SetFlag => r.producer.TailStored?
  }

  function RingApply(r: Ring, e: RingEvent): Ring
    requires RingEnabled(r, e)
  {
    match e
    case ReadHead => r.(consumer := HeadRead(r.head))
    case ReadTail =>
      r.(consumer := if r.consumer.head == r.tail then Idle else Draining(r.consumer.head, r.tail))
    case WakeOne =>
      r.(consumer := Draining(WrapAdd(r.consumer.head, 1), r.consumer.tail),
         past := r.past.(woken := r.past.woken + [r.slots[r.consumer.head % CAPACITY]]))
    case LeaveLoop => r.(consumer := Publishing(r.consumer.head))
    case PublishHead =>
      r.(head := r.consumer.head, consumer := Clearing, past := r.past.(published := |r.past.woken|))
    case ClearFlag => r.(flag := 0, consumer := Idle)
    case SeeHead(id) => r.(producer := HeadSeen(id, r.head))
    case CheckFull =>
      r.(producer := if WrapSub(r.tail, r.producer.head) >= CAPACITY then Ready
                     else SlotFree(r.producer.id, r.tail))
    case WriteSlot =>
      r.(slots := r.slots[r.producer.tail % CAPACITY := r.producer.id],
         producer := SlotWritten(r.producer.id, r.producer.tail))
    case StoreTail =>
      r.(tail := WrapAdd(r.producer.tail, 1), producer := TailStored,
         past := r.past.(sent := r.past.sent + [r.producer.id]))
    case SetFlag => r.(flag := 1, producer := Ready)
  }

  ghost predicate RingOk(r: Ring) {
    var sent, woken, published := |r.past.sent|, |r.past.woken|, r.past.published;
    && |r.slots| == CAPACITY
    && published <= woken <= sent <= published + CAPACITY
    && r.past.woken == r.past.sent[..woken]
    && r.head == ToWord(published) && r.tail == ToWord(sent)
    && (forall k | published <= k < sent :: r.slots[k % CAPACITY] == r.past.sent[k])
    && ConsumerOk(r, woken, published) && ProducerOk(r, sent, published)
  }

  ghost predicate ConsumerOk(r: Ring, woken: nat, published: nat) {
    match r.consumer
    case Idle => woken == published
    case HeadRead(h) => woken == published && h == r.head
    case Draining(h, t) =>
      h == ToWord(woken) && exists seen: nat :: woken <= seen <= |r.past.sent| && t == ToWord(seen)
    case Publishing(h) => h == ToWord(woken)
    case Clearing => woken == published
  }

  ghost predicate ProducerOk(r: Ring, sent: nat, published: nat) {
    match r.producer
    case HeadSeen(_, h) =>
      exists seen: nat :: seen <= published && sent <= seen + CAPACITY && h == ToWord(seen)
    case SlotFree(_, t) => t == r.tail && sent < published + CAPACITY
    case SlotWritten(id, t) =>
      t == r.tail && sent < published + CAPACITY && |r.slots| == CAPACITY && r.slots[t % CAPACITY] == id
    case _ => true
  }

  /** 32 divides 2^32, so the slot of a count does not depend on the wrap. */
  lemma SlotOfWord(n: nat)
    ensures ToWord(n) % CAPACITY == n % CAPACITY
  {
    var q := n / TWO_32;
    assert n == q * TWO_32 + n % TWO_32;
    assert q * TWO_32 == (q * 0x800_0000) * CAPACITY;
    ModMultiple(ToWord(n), q * 0x800_0000);
  }

  lemma ModMultiple(a: nat, q: nat)
    ensures (q * CAPACITY + a) % CAPACITY == a % CAPACITY
  {
    if q > 0 {
      ModMultiple(a, q - 1);
      assert (q * CAPACITY + a) == ((q - 1) * CAPACITY + a) + CAPACITY;
    }
  }

  /** Nearby counts are equal exactly if their words are. */
  lemma NearWords(a: nat, b: nat)
    requires a <= b < a + TWO_32
    ensures ToWord(a) == ToWord(b) <==> a == b
    ensures WrapSub(ToWord(b), ToWord(a)) == b - a
  {
    assert (ToWord(b) - ToWord(a) - (b - a)) % TWO_32 == 0;
  }

  lemma NextWord(n: nat)
    ensures WrapAdd(ToWord(n), 1) == ToWord(n + 1)
  {
  }

  /** Counts within one lap of each other use different slots. */
  lemma DistinctSlots(a: nat, b: nat)
    requires a < b < a + CAPACITY
    ensures a % CAPACITY != b % CAPACITY
  {
  }

  lemma ConsumerStep(r: Ring, e: RingEvent)
    requires RingOk(r) && RingEnabled(r, e)
    requires e.ReadHead? || e.ReadTail? || e.WakeOne? || e.LeaveLoop? || e.PublishHead? || e.ClearFlag?
    ensures RingOk(RingApply(r, e))
  {
    var sent, woken := |r.past.sent|, |r.past.woken|;
    match e
    case WakeOne =>
      var seen: nat :| woken <= seen <= sent && r.consumer.tail == ToWord(seen);
      NearWords(woken, seen);
      SlotOfWord(woken);
      NextWord(woken);
      var r' := RingApply(r, e);
      assert r'.past.woken == r'.past.sent[..woken + 1];
      assert woken + 1 <= seen <= |r'.past.sent| && r'.consumer.tail == ToWord(seen);
    case PublishHead =>
      var r' := RingApply(r, e);
      if r.producer.HeadSeen? {
        var seen: nat :| seen <= r.past.published && sent <= seen + CAPACITY && r.producer.head == ToWord(seen);
        assert seen <= r'.past.published && sent <= seen + CAPACITY && r'.producer.head == ToWord(seen);
      }
    case ReadTail =>
      assert woken <= sent <= sent && r.tail == ToWord(sent);
    case _ =>
  }

  lemma ProducerStep(r: Ring, e: RingEvent)
    requires RingOk(r) && RingEnabled(r, e)
    requires e.SeeHead? || e.CheckFull? || e.SetFlag? || e.WriteSlot? || e.StoreTail?
    ensures RingOk(RingApply(r, e))
  {
    var sent, published := |r.past.sent|, r.past.published;
    var r' := RingApply(r, e);
    match e
    case SeeHead(_) =>
      assert published <= published && sent <= published + CAPACITY && r.head == ToWord(published);
    case CheckFull =>
      var seen: nat :| seen <= published && sent <= seen + CAPACITY && r.producer.head == ToWord(seen);
      NearWords(seen, sent);
    case WriteSlot =>
      SlotOfWord(sent);
      forall k | published <= k < sent ensures r'.slots[k % CAPACITY] == r.past.sent[k] {
        DistinctSlots(k, sent);
      }
    case StoreTail =>
      SlotOfWord(sent);
      NextWord(sent);
      if r.consumer.Draining? {
        var seen: nat :| |r.past.woken| <= seen <= sent && r.consumer.tail == ToWord(seen);
        assert |r'.past.woken| <= seen <= |r'.past.sent| && r'.consumer.tail == ToWord(seen);
      }
    case SetFlag =>
  }

  ghost predicate RingRun(es: seq<RingEvent>) {
    es == []
    || (RingRun(es[..|es| - 1]) && RingEnabled(RingAfter(es[..|es| - 1]), es[|es| - 1]))
  }

  ghost function RingAfter(es: seq<RingEvent>): Ring {
    if es == [] then RingInit()
    else
      var r := RingAfter(es[..|es| - 1]);
      if RingEnabled(r, es[|es| - 1]) then RingApply(r, es[|es| - 1]) else r
  }

  lemma {:induction false} RingAlways(es: seq<RingEvent>)
    requires RingRun(es)
    ensures RingOk(RingAfter(es))
  {
    if es != [] {
      var r, e := RingAfter(es[..|es| - 1]), es[|es| - 1];
      RingAlways(es[..|es| - 1]);
      if e.SeeHead? || e.CheckFull? || e.SetFlag? || e.WriteSlot? || e.StoreTail? {
        ProducerStep(r, e);
      } else {
        ConsumerStep(r, e);
      }
    }
  }

  /**
   Over every run, however often the words wrap: the woken ids are the accepted
   ids in order, each once. Between drains the head and tail words differ
   exactly if an accepted id is still to be woken, whatever the flag says.
   */
  lemma ExactlyOnceInOrder(es: seq<RingEvent>)
    requires RingRun(es)
    ensures var r := RingAfter(es);
            && r.past.woken <= r.past.sent
            && (r.head != r.tail <==> r.past.published < |r.past.sent|)
            && (r.consumer.Idle? ==> (r.head == r.tail <==> r.past.woken == r.past.sent))
  {
    RingAlways(es);
    var r := RingAfter(es);
    NearWords(r.past.published, |r.past.sent|);
    if r.consumer.Idle? && |r.past.woken| == |r.past.sent| {
      assert r.past.sent[..|r.past.sent|] == r.past.sent;
    }
  }

  /** A set that no clear came after. */
  predicate SetLast(es: seq<RingEvent>) {
    exists k | 0 <= k < |es| :: SetAt(es, k)
  }

  predicate SetAt(es: seq<RingEvent>, k: nat)
    requires k < |es|
  {
    es[k] == SetFlag && forall j | k < j < |es| :: es[j] != ClearFlag
  }

  lemma SetNext(es: seq<RingEvent>, e: RingEvent)
    ensures SetLast(es + [e]) <==> e == SetFlag || (SetLast(es) && e != ClearFlag)
  {
    var all := es + [e];
    if SetLast(all) {
      var k :| 0 <= k < |all| && SetAt(all, k);
      assert all[|es|] == e;
      if k < |es| {
        forall j | k < j < |es| ensures es[j] != ClearFlag { assert es[j] == all[j]; }
        assert es[k] == all[k] && SetAt(es, k);
      }
    }
    if e == SetFlag {
      assert SetAt(all, |es|);
    } else if SetLast(es) && e != ClearFlag {
      var k :| 0 <= k < |es| && SetAt(es, k);
      assert all[k] == es[k] && forall j | k < j < |es| :: all[j] == es[j];
      assert SetAt(all, k);
    }
  }

  /** The flag is up exactly if it was set and not cleared since. */
  lemma {:induction false} FlagIsLast(es: seq<RingEvent>)
    requires RingRun(es)
    ensures RingAfter(es).flag == if SetLast(es) then 1 else 0
  {
    if es != [] {
      var rest, e := es[..|es| - 1], es[|es| - 1];
      FlagIsLast(rest);
      SetNext(rest, e);
      assert es == rest + [e];
    }
  }

  /** An enqueue is skipped only if the ring held 32 entries when it read the head. */
  lemma SkipMeansFull(es: seq<RingEvent>)
    requires RingRun(es) && RingAfter(es).producer.HeadSeen?
    ensures var r := RingAfter(es);
            RingApply(r, CheckFull).producer.Ready? <==>
            exists seen: nat :: seen <= r.past.published && r.producer.head == ToWord(seen)
                                && |r.past.sent| == seen + CAPACITY
  {
    RingAlways(es);
    var r := RingAfter(es);
    var seen: nat :| seen <= r.past.published && |r.past.sent| <= seen + CAPACITY
                     && r.producer.head == ToWord(seen);
    NearWords(seen, |r.past.sent|);
    forall other: nat | other <= r.past.published && r.producer.head == ToWord(other)
                        && |r.past.sent| == other + CAPACITY
      ensures WrapSub(r.tail, r.producer.head) == CAPACITY
    {
      NearWords(other, |r.past.sent|);
    }
  }

  /** Enqueues of `ids` one after the other, with no drain. */
  function Filling(ids: seq<Word>): seq<RingEvent> {
    if ids == [] then []
    else Filling(ids[..|ids| - 1]) + [SeeHead(ids[|ids| - 1])] + [CheckFull] + [WriteSlot] + [StoreTail] + [SetFlag]
  }

  /** Neither actor is busy, `ids` were accepted and none was woken. */
  predicate Filled(r: Ring, ids: seq<Word>) {
    && |r.slots| == CAPACITY && r.consumer.Idle? && r.producer.Ready?
    && r.head == 0 && r.tail == ToWord(|ids|) && r.past.sent == ids && r.past.woken == []
  }

  lemma RingMore(es: seq<RingEvent>, r: Ring, e: RingEvent)
    requires RingRun(es) && RingAfter(es) == r && RingEnabled(r, e)
    ensures RingRun(es + [e]) && RingAfter(es + [e]) == RingApply(r, e)
  {
    assert (es + [e])[..|es + [e]| - 1] == es;
  }

  lemma FillAdmits(es: seq<RingEvent>, r: Ring, ids: seq<Word>, id: Word)
    requires RingRun(es) && RingAfter(es) == r && Filled(r, ids) && |ids| < CAPACITY
    ensures var fs := es + [SeeHead(id)] + [CheckFull];
            RingRun(fs) && RingAfter(fs) == r.(producer := SlotFree(id, r.tail))
  {
    RingMore(es, r, SeeHead(id));
    RingMore(es + [SeeHead(id)], r.(producer := HeadSeen(id, 0)), CheckFull);
  }

  lemma FillStores(es: seq<RingEvent>, r: Ring, id: Word)
    requires RingRun(es) && RingAfter(es) == r && |r.slots| == CAPACITY && r.producer == SlotFree(id, r.tail)
    ensures var fs := es + [WriteSlot] + [StoreTail];
            && RingRun(fs)
            && RingAfter(fs) == r.(slots := r.slots[r.tail % CAPACITY := id], tail := WrapAdd(r.tail, 1),
                                   producer := TailStored, past := r.past.(sent := r.past.sent + [id]))
  {
    RingMore(es, r, WriteSlot);
    RingMore(es + [WriteSlot], RingApply(r, WriteSlot), StoreTail);
  }

  lemma FillOne(es: seq<RingEvent>, r: Ring, ids: seq<Word>, id: Word)
    requires RingRun(es) && RingAfter(es) == r && Filled(r, ids) && |ids| < CAPACITY
    ensures var fs := es + [SeeHead(id)] + [CheckFull] + [WriteSlot] + [StoreTail] + [SetFlag];
            RingRun(fs) && Filled(RingAfter(fs), ids + [id])
  {
    FillAdmits(es, r, ids, id);
    var admitted := es + [SeeHead(id)] + [CheckFull];
    FillStores(admitted, r.(producer := SlotFree(id, r.tail)), id);
    var stored := admitted + [WriteSlot] + [StoreTail];
    RingMore(stored, RingAfter(stored), SetFlag);
    NextWord(|ids|);
  }

  lemma {:induction false} FillingRun(ids: seq<Word>)
    requires |ids| <= CAPACITY
    ensures RingRun(Filling(ids)) && Filled(RingAfter(Filling(ids)), ids)
  {
    if ids != [] {
      var before := ids[..|ids| - 1];
      FillingRun(before);
      FillOne(Filling(before), RingAfter(Filling(before)), before, ids[|ids| - 1]);
      assert before + [ids[|ids| - 1]] == ids;
    }
  }

  /** Skips do happen: after any 32 enqueues without a drain, the next id is dropped. */
  lemma FullRingSkips(ids: seq<Word>, id: Word)
    requires |ids| == CAPACITY
    ensures var es := Filling(ids) + [SeeHead(id)] + [CheckFull];
            RingRun(es) && Filled(RingAfter(es), ids)
  {
    FillingRun(ids);
    var r := RingAfter(Filling(ids));
    RingMore(Filling(ids), r, SeeHead(id));
    RingMore(Filling(ids) + [SeeHead(id)], r.(producer := HeadSeen(id, 0)), CheckFull);
  }

  // ---------------------------------------------------------------------
  // The word array
  // ---------------------------------------------------------------------

  // Word indices of the ABI layout (byte offsets divided by four).
  const HEAD := 0
  const FLAG := 1
  const TAIL := 2
  const CAPACITY_WORD := 3
  const RING := 4
  const WAKE_WORD := RING + CAPACITY
  const PARK_WORDS := WAKE_WORD + 1
  const PARK_WORDS_CAPACITY := 1024
  const STOP := PARK_WORDS + PARK_WORDS_CAPACITY
  const WORDS := STOP + 1

  /** The undrained ids of a ring with these words, oldest first. */
  function Undrained(words: seq<Word>): seq<Word>
    requires |words| == WORDS && WrapSub(words[TAIL], words[HEAD]) <= CAPACITY
  {
    seq(WrapSub(words[TAIL], words[HEAD]), i requires i >= 0 => words[SlotAt(words[HEAD], i)])
  }

  /** The word index of the `i`-th entry from `head`. */
  function SlotAt(head: Word, i: nat): (k: nat)
    ensures RING <= k < WAKE_WORD
  {
    RING + (head + i) % CAPACITY
  }

  lemma UndrainedAppend(words: seq<Word>, id: Word)
    requires |words| == WORDS && WrapSub(words[TAIL], words[HEAD]) < CAPACITY
    ensures var tail := words[TAIL];
            var next := words[RING + tail % CAPACITY := id][TAIL := WrapAdd(tail, 1)][FLAG := 1];
            && WrapSub(next[TAIL], next[HEAD]) <= CAPACITY
            && Undrained(next) == Undrained(words) + [id]
  {
    var head, tail := words[HEAD], words[TAIL];
    var n := WrapSub(tail, head);
    var next := words[RING + tail % CAPACITY := id][TAIL := WrapAdd(tail, 1)][FLAG := 1];
    TailSlot(head, tail);
    AddAfterSub(head, tail);
    forall i: nat | i < n ensures next[SlotAt(head, i)] == words[SlotAt(head, i)] {
      DistinctSlots(head + i, head + n);
    }
  }

  /** Reading on from `first`, the index is `head` after `i` of the entries up to `tail`. */
  predicate Along(first: Word, tail: Word, head: Word, i: nat) {
    && i <= WrapSub(tail, first) && head == WrapAdd(first, i)
    && WrapSub(tail, head) == WrapSub(tail, first) - i
  }

  lemma AlongNext(first: Word, tail: Word, head: Word, i: nat)
    requires Along(first, tail, head, i) && head != tail
    ensures i < WrapSub(tail, first) && Along(first, tail, WrapAdd(head, 1), i + 1)
    ensures RING + head % CAPACITY == SlotAt(first, i)
  {
    StepCloser(head, tail);
    WrapTwice(first, i);
    SlotOfWord(first + i);
  }

  lemma WrapTwice(first: Word, i: nat)
    requires i + 1 < TWO_32
    ensures WrapAdd(WrapAdd(first, i), 1) == WrapAdd(first, i + 1)
  {
  }

  /** The consumer has read `i` entries and its index is `head`. */
  predicate Reached(words: seq<Word>, head: Word, i: nat) {
    && |words| == WORDS && WrapSub(words[TAIL], words[HEAD]) <= CAPACITY
    && Along(words[HEAD], words[TAIL], head, i)
  }

  lemma ReachNext(words: seq<Word>, head: Word, i: nat)
    requires Reached(words, head, i) && head != words[TAIL]
    ensures Reached(words, WrapAdd(head, 1), i + 1)
    ensures Undrained(words)[..i + 1] == Undrained(words)[..i] + [words[RING + head % CAPACITY]]
  {
    AlongNext(words[HEAD], words[TAIL], head, i);
    assert Undrained(words)[i] == words[SlotAt(words[HEAD], i)];
  }

  lemma ReachEnd(words: seq<Word>, i: nat)
    requires |words| == WORDS && Reached(words, words[TAIL], i)
    ensures Undrained(words)[..i] == Undrained(words)
  {
  }

  class GuestMailbox {
    const words: array<Word>

    ghost predicate Valid()
      reads this, words
    {
      words.Length == WORDS && WrapSub(words[TAIL], words[HEAD]) <= CAPACITY
    }

    ghost function Pending(): seq<Word>
      requires Valid()
      reads this, words
    {
      Undrained(words[..])
    }

    /** `register_mailbox` on a fresh process: everything zero but the capacity. */
    constructor ()
      ensures Valid() && Pending() == [] && fresh(words)
    {
      words := new Word[WORDS](i => if i == CAPACITY_WORD then CAPACITY else 0);
    }

    /** `mailbox_has_pending`: the indices decide, never the flag. */
    method HasPending() returns (pending: bool)
      requires Valid()
      ensures pending <==> Pending() != []
    {
      pending := words[HEAD] != words[TAIL];
      if !pending {
        assert WrapSub(words[TAIL], words[HEAD]) == 0;
      }
    }

    /** The host's `enqueue`: appends unless 32 ids are waiting. */
    method Enqueue(id: Word)
      requires Valid()
      modifies words
      ensures Valid()
      ensures Pending() == if |old(Pending())| < CAPACITY then old(Pending()) + [id] else old(Pending())
      ensures forall k | WAKE_WORD <= k < WORDS :: words[k] == old(words[k])
    {
      var head, tail := words[HEAD], words[TAIL];
      if WrapSub(tail, head) >= CAPACITY {
        return;
      }
      UndrainedAppend(words[..], id);
      words[RING + tail % CAPACITY] := id;
      words[TAIL] := WrapAdd(tail, 1);
      words[FLAG] := 1;
      assert words[..] == old(words[..])[RING + tail % CAPACITY := id][TAIL := WrapAdd(tail, 1)][FLAG := 1];
    }

    /** `drain_mailbox`: hands every waiting id to `wake_task`, oldest first. */
    method Drain() returns (woken: seq<Word>)
      requires Valid()
      modifies words
      ensures Valid() && Pending() == [] && woken == old(Pending())
      ensures forall k | WAKE_WORD <= k < WORDS :: words[k] == old(words[k])
    {
      woken := [];
      var head: Word, tail: Word := words[HEAD], words[TAIL];
      if head == tail {
        return;
      }
      ghost var before, i := words[..], 0;
      while head != tail
        invariant words[..] == before && Reached(before, head, i)
        invariant woken == Undrained(before)[..i]
        decreases WrapSub(tail, head)
      {
        StepCloser(head, tail);
        ReachNext(before, head, i);
        woken := woken + [words[RING + head % CAPACITY]];
        head := WrapAdd(head, 1);
        i := i + 1;
      }
      ReachEnd(before, i);
      words[HEAD] := head;
      words[FLAG] := 0;
    }

    /** `bump_wake_word`: adds one modulo 2^32 and returns the previous value. */
    method BumpWakeWord() returns (previous: Word)
      requires Valid()
      modifies words
      ensures Valid() && Pending() == old(Pending())
      ensures previous == old(words[WAKE_WORD]) && words[WAKE_WORD] == WrapAdd(previous, 1)
      ensures forall k | 0 <= k < WORDS && k != WAKE_WORD :: words[k] == old(words[k])
    {
      previous := words[WAKE_WORD];
      words[WAKE_WORD] := WrapAdd(previous, 1);
    }
  }

  /** The slot the producer writes is the one after the last undrained entry. */
  lemma TailSlot(head: Word, tail: Word)
    ensures tail % CAPACITY == (head + WrapSub(tail, head)) % CAPACITY
  {
    SlotOfWord(head + WrapSub(tail, head));
    assert ToWord(head + WrapSub(tail, head)) == tail;
  }

  lemma AddAfterSub(head: Word, tail: Word)
    requires WrapSub(tail, head) < CAPACITY
    ensures WrapSub(WrapAdd(tail, 1), head) == WrapSub(tail, head) + 1
  {
  }

  lemma StepCloser(head: Word, tail: Word)
    requires head != tail
    ensures WrapSub(tail, head) > 0 && WrapSub(tail, WrapAdd(head, 1)) == WrapSub(tail, head) - 1
  {
  }
}
