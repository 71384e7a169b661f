/**
 Region hostcalls under interleaving. Here every lock section of an allocation,
 a free and a handoff is an event of its own, and any number of host threads run
 them at once. Both promises of the whole hostcalls can fail then, and this
 module says exactly when.
 */
module RegionRaces {
  import opened Common
  import opened Sums
  import opened Quota
  import R = Regions

  type Pid = R.Pid
  type Rid = R.Rid
  type Len = R.Len

  /** Where a thread is. `paid` is the tenant a free found on record. */
  datatype Pc =
    | Idle
    | Reserved(p: Pid, tenant: string, size: Len)                   // no region yet
    | Minting(p: Pid, r: Rid, tenant: string, size: Len)            // claimed, not recorded
    | FreeOwner(p: Pid, r: Rid)                                     // owner check passed
    | FreeKnown(p: Pid, r: Rid, size: Len, paid: Option<string>)    // length and record read
    | FreeGone(p: Pid, r: Rid, size: Len, paid: Option<string>)     // destroyed, still owned
    | FreeOwing(p: Pid, r: Rid, size: Len, paid: Option<string>)    // disowned, slot not returned
    | FreeLast(p: Pid, r: Rid)                                      // record to be removed
    | Handing(to: Pid, sender: Pid, r: Rid)                         // owner check passed
    | Rekeyed(to: Pid, sender: Pid, r: Rid)                         // record moved, owner not

  /** History: every region ever allocated, and bytes reserved by allocations that then failed. */
  datatype Past = Past(born: set<Rid>, leaked: map<string, nat>)

  datatype State = State(tenants: map<Pid, Option<string>>, books: R.Books, quotas: Quotas,
                         threads: seq<Pc>, past: Past)

  datatype Action =
    | Reserve(p: Pid, tenant: string, size: Len)
    | KernelFails
    | Allocate(r: Rid)
    | PublishFails
    | Record
    | FreeCheck(p: Pid, r: Rid)
    | FreeRead
    | FreeRefused
    | FreeDestroy
    | FreeDisown
    | FreeRelease
    | FreeForget
    | HandCheck(to: Pid, sender: Pid, r: Rid)
    | HandRekey
    | HandOwn

  datatype Event =
    | Start(p: Pid, tenant: Option<string>)
    | QuotaSet(name: string, class_: ResourceClass, limit: U64)
    | QuotaClear(name: string, class_: ResourceClass)
    | Step(i: nat, act: Action)

  function Init(n: nat): State {
    State(map[], R.Books(map[], map[], map[]), map[], seq(n, _ => Idle), Past({}, map[]))
  }

  predicate Ready(s: State, pc: Pc, act: Action) {
    match act
    case Reserve(_, _, _) => pc.Idle?
    case KernelFails => pc.Reserved?
    case Allocate(r) => pc.Reserved? && r !in s.past.born
    case PublishFails => pc.Minting?
    case Record => pc.Minting?
    case FreeCheck(_, _) => pc.Idle?
    case FreeRead => pc.FreeOwner?
    case FreeRefused => pc.FreeKnown?
    case FreeDestroy => pc.FreeKnown?
    case FreeDisown => pc.FreeGone?
    case FreeRelease => pc.FreeOwing?
    case FreeForget => pc.FreeLast?
    case HandCheck(_, _, _) => pc.Idle?
    case HandRekey => pc.Handing?
    case HandOwn => pc.Rekeyed?
  }

  predicate Enabled(s: State, e: Event) {
    match e
    case Start(p, _) => p !in s.tenants
    case Step(i, act) => i < |s.threads| && Ready(s, s.threads[i], act)
    case _ => true
  }

  predicate Allocating(act: Action) {
    act.Reserve? || act.KernelFails? || act.Allocate? || act.PublishFails? || act.Record?
  }

  predicate HandingOver(act: Action) {
    act.HandCheck? || act.HandRekey? || act.HandOwn?
  }

  function At(s: State, i: nat, pc: Pc): State
    requires i < |s.threads|
  {
    s.(threads := s.threads[i := pc])
  }

  function Lost(past: Past, tenant: string, size: nat): Past {
    past.(leaked := past.leaked[tenant := size + if tenant in past.leaked then past.leaked[tenant] else 0])
  }

  /** `AllocRegion`: reserve, allocate and claim, publish and record. */
  function Alloc(s: State, i: nat, act: Action): State
    requires i < |s.threads| && Ready(s, s.threads[i], act) && Allocating(act)
  {
    var pc := s.threads[i];
    match act
    case Reserve(p, tenant, size) =>
      if Admits(s.quotas, tenant, SharedRegion, size) then
        At(s.(quotas := Consume(s.quotas, tenant, SharedRegion, size)), i, Reserved(p, tenant, size))
      else s
    case KernelFails => At(s, i, Idle).(past := Lost(s.past, pc.tenant, pc.size))
    case Allocate(r) =>
      At(s, i, Minting(pc.p, r, pc.tenant, pc.size)).(
        books := R.Mint(s.books, pc.p, r, pc.size, pc.tenant, false),
        past := s.past.(born := s.past.born + {r}))
    case PublishFails => At(s, i, Idle).(past := Lost(s.past, pc.tenant, pc.size))
    case Record =>
      At(s, i, Idle).(books := s.books.(records := s.books.records[(pc.p, pc.r) := pc.tenant]))
  }

  /**
   `FreeRegion`. A region that is already gone ends the call without effect, and
   so does one that is mapped again before it is destroyed.
   */
  function Free(s: State, i: nat, act: Action): State
    requires i < |s.threads| && Ready(s, s.threads[i], act) && !Allocating(act) && !HandingOver(act)
  {
    var pc := s.threads[i];
    match act
    case FreeCheck(p, r) => if R.Owns(s.books, p, r) then At(s, i, FreeOwner(p, r)) else s
    case FreeRead =>
      if pc.r !in s.books.lens then At(s, i, Idle)
      else
        var k := (pc.p, pc.r);
        At(s, i, FreeKnown(pc.p, pc.r, s.books.lens[pc.r],
                           if k in s.books.records then Some(s.books.records[k]) else None))
    case FreeRefused => At(s, i, Idle)
    case FreeDestroy =>
      if pc.r !in s.books.lens then At(s, i, Idle)
      else
        At(s, i, FreeGone(pc.p, pc.r, pc.size, pc.paid)).(books := s.books.(lens := s.books.lens - {pc.r}))
    case FreeDisown =>
      At(s, i, FreeOwing(pc.p, pc.r, pc.size, pc.paid)).(
        books := s.books.(owners := R.Disown(s.books.owners, pc.p, pc.r)))
    case FreeRelease =>
      At(s, i, FreeLast(pc.p, pc.r)).(
        quotas := if pc.paid.Some? then Release(s.quotas, pc.paid.value, SharedRegion, pc.size) else s.quotas)
    case FreeForget =>
      At(s, i, Idle).(books := s.books.(records := s.books.records - {(pc.p, pc.r)}))
  }

  /** `transfer_region_ownership_on_recv`. The record and its reservation move in one section. */
  function Hand(s: State, i: nat, act: Action): State
    requires i < |s.threads| && Ready(s, s.threads[i], act) && HandingOver(act)
  {
    var pc, b := s.threads[i], s.books;
    match act
    case HandCheck(to, sender, r) => if R.Owns(b, sender, r) then At(s, i, Handing(to, sender, r)) else s
    case HandRekey => At(Rekey(s, pc.to, pc.sender, pc.r), i, Rekeyed(pc.to, pc.sender, pc.r))
    case HandOwn =>
      At(s, i, Idle).(
        books := if pc.r in b.owners
                 then b.(owners := b.owners[pc.r := b.owners[pc.r] - {pc.sender} + {pc.to}]) else b)
  }

  function Rekey(s: State, to: Pid, sender: Pid, r: Rid): State {
    var b, k := s.books, (sender, r);
    if k !in b.records then s
    else
      var from, dest := b.records[k], R.TenantName(s.tenants, to);
      s.(books := b.(records := (b.records - {k})[(to, r) := dest]),
         quotas := if from != dest && r in b.lens
                   then Consume(Release(s.quotas, from, SharedRegion, b.lens[r]), dest, SharedRegion, b.lens[r])
                   else s.quotas)
  }

  function Apply(s: State, e: Event): State
    requires Enabled(s, e)
  {
    match e
    case Start(p, tenant) => s.(tenants := s.tenants[p := tenant])
    case QuotaSet(name, class_, limit) => s.(quotas := Author(s.quotas, name, class_, limit))
    case QuotaClear(name, class_) => s.(quotas := s.quotas - {(name, class_)})
    case Step(i, act) =>
      if Allocating(act) then Alloc(s, i, act) else if HandingOver(act) then Hand(s, i, act) else Free(s, i, act)
  }

  // ---------------------------------------------------------------------
  // Reservations
  // ---------------------------------------------------------------------

  /** The bytes a thread holds mid-call for the tenant. */
  function Carried(pc: Pc, t: string): nat {
    match pc
    case Reserved(_, tenant, size) => if tenant == t then size else 0
    case Minting(_, _, tenant, size) => if tenant == t then size else 0
    case FreeGone(_, _, size, paid) => if paid == Some(t) then size else 0
    case FreeOwing(_, _, size, paid) => if paid == Some(t) then size else 0
    case _ => 0
  }

  function CarriedBy(threads: seq<Pc>, t: string): nat {
    if threads == [] then 0 else Carried(threads[0], t) + CarriedBy(threads[1..], t)
  }

  lemma {:induction false} CarriedUpdate(threads: seq<Pc>, i: nat, pc: Pc, t: string)
    requires i < |threads|
    ensures CarriedBy(threads[i := pc], t) + Carried(threads[i], t) == CarriedBy(threads, t) + Carried(pc, t)
  {
    var after := threads[i := pc];
    if i > 0 {
      CarriedUpdate(threads[1..], i - 1, pc, t);
      assert after[1..] == threads[1..][i - 1 := pc];
    } else {
      assert after[1..] == threads[1..];
    }
  }

  function LeakedBy(past: Past, t: string): nat {
    if t in past.leaked then past.leaked[t] else 0
  }

  /** The lengths of the live regions recorded under the tenant. */
  ghost function Recorded(b: R.Books, t: string): nat {
    Total(R.Lengths(b.records, b.lens, t))
  }

  /** What a tenant holds: live recorded regions, calls in flight, and failed allocations. */
  ghost function Held(s: State, t: string): nat {
    Recorded(s.books, t) + CarriedBy(s.threads, t) + LeakedBy(s.past, t)
  }

  ghost predicate Exact(s: State, t: string) {
    Used(s.quotas, t, SharedRegion) == Held(s, t)
  }

  /** The sums stay below 2^64, so no counter saturates. */
  ghost predicate Small(s: State) {
    forall t :: Held(s, t) <= U64_MAX
  }

  // ---------------------------------------------------------------------
  // What every state keeps
  // ---------------------------------------------------------------------

  /** A region has one record at most. */
  predicate OneRecord(records: map<(Pid, Rid), string>) {
    forall j, k | j in records && k in records && j.1 == k.1 :: j == k
  }

  predicate NoRecord(records: map<(Pid, Rid), string>, r: Rid) {
    forall k | k in records :: k.1 != r
  }

  /** A thread knows its region: it was born, its length is right, and a destroyed region stays so. */
  predicate ThreadOk(b: R.Books, born: set<Rid>, pc: Pc) {
    match pc
    case Minting(_, r, _, size) => r in born && NoRecord(b.records, r) && (r in b.lens ==> b.lens[r] == size)
    case FreeKnown(_, r, size, _) => r in born && (r in b.lens ==> b.lens[r] == size)
    case FreeGone(_, r, _, _) => r in born && r !in b.lens
    case FreeOwing(_, r, _, _) => r in born && r !in b.lens
    case FreeLast(_, r) => r in born && r !in b.lens
    case _ => true
  }

  predicate BooksOk(b: R.Books, born: set<Rid>) {
    && b.lens.Keys <= born && OneRecord(b.records) && (forall k | k in b.records :: k.1 in born)
    && b.lens.Keys <= b.owners.Keys
  }

  /** Two threads never mint the same region. */
  predicate Apart(threads: seq<Pc>) {
    forall i, j | 0 <= i < j < |threads| && threads[i].Minting? && threads[j].Minting? :: threads[i].r != threads[j].r
  }

  predicate ThreadsOk(b: R.Books, born: set<Rid>, threads: seq<Pc>) {
    (forall i | 0 <= i < |threads| :: ThreadOk(b, born, threads[i])) && Apart(threads)
  }

  predicate Sane(s: State) {
    BooksOk(s.books, s.past.born) && ThreadsOk(s.books, s.past.born, s.threads)
  }

  /** The regions keep their length or go, and no record appears. */
  predicate Shrinks(b: R.Books, a: R.Books) {
    && a.lens.Keys <= b.lens.Keys && (forall r | r in a.lens :: a.lens[r] == b.lens[r])
    && (forall k | k in a.records :: exists j :: j in b.records && j.1 == k.1)
  }

  lemma ThreadShrinks(b: R.Books, a: R.Books, born: set<Rid>, pc: Pc)
    requires ThreadOk(b, born, pc) && Shrinks(b, a)
    ensures ThreadOk(a, born, pc)
  {
    if pc.Minting? {
      forall k | k in a.records ensures k.1 != pc.r {
        var j :| j in b.records && j.1 == k.1;
      }
    }
  }

  /** A step that shrinks the books and does not start minting. */
  lemma ThreadsShrink(b: R.Books, a: R.Books, born: set<Rid>, threads: seq<Pc>, i: nat, pc: Pc)
    requires ThreadsOk(b, born, threads) && Shrinks(b, a) && i < |threads|
    requires ThreadOk(a, born, pc) && !pc.Minting?
    ensures ThreadsOk(a, born, threads[i := pc])
  {
    var after := threads[i := pc];
    forall j | 0 <= j < |after| ensures ThreadOk(a, born, after[j]) {
      if j != i {
        ThreadShrinks(b, a, born, threads[j]);
      }
    }
    forall j, k | 0 <= j < k < |after| && after[j].Minting? && after[k].Minting? ensures after[j].r != after[k].r {
      assert after[j] == threads[j] && after[k] == threads[k];
    }
  }

  lemma SaneAllocate(s: State, i: nat, r: Rid)
    requires Sane(s) && i < |s.threads| && Ready(s, s.threads[i], Allocate(r))
    ensures Sane(Alloc(s, i, Allocate(r)))
  {
    var a, pc := Alloc(s, i, Allocate(r)), s.threads[i];
    forall j | 0 <= j < |a.threads| ensures ThreadOk(a.books, a.past.born, a.threads[j]) {
      if j != i {
        assert ThreadOk(s.books, s.past.born, s.threads[j]);
      }
    }
    forall j, k | 0 <= j < k < |a.threads| && a.threads[j].Minting? && a.threads[k].Minting?
      ensures a.threads[j].r != a.threads[k].r
    {
      assert j != i ==> ThreadOk(s.books, s.past.born, s.threads[j]);
      assert k != i ==> ThreadOk(s.books, s.past.born, s.threads[k]);
    }
  }

  lemma SaneRecord(s: State, i: nat)
    requires Sane(s) && i < |s.threads| && Ready(s, s.threads[i], Record)
    ensures Sane(Alloc(s, i, Record))
  {
    var a, pc := Alloc(s, i, Record), s.threads[i];
    assert ThreadOk(s.books, s.past.born, pc);
    forall j | 0 <= j < |a.threads| ensures ThreadOk(a.books, a.past.born, a.threads[j]) {
      if j != i {
        assert ThreadOk(s.books, s.past.born, s.threads[j]);
        assert s.threads[j].Minting? ==> s.threads[j].r != pc.r;
      }
    }
    forall j, k | 0 <= j < k < |a.threads| && a.threads[j].Minting? && a.threads[k].Minting?
      ensures a.threads[j].r != a.threads[k].r
    {
      assert a.threads[j] == s.threads[j] && a.threads[k] == s.threads[k];
    }
  }

  lemma SaneAlloc(s: State, i: nat, act: Action)
    requires Sane(s) && i < |s.threads| && Ready(s, s.threads[i], act) && Allocating(act)
    ensures Sane(Alloc(s, i, act))
  {
    if act.Allocate? {
      SaneAllocate(s, i, act.r);
    } else if act.Record? {
      SaneRecord(s, i);
    } else if Alloc(s, i, act) != s {
      ThreadsShrink(s.books, s.books, s.past.born, s.threads, i, Alloc(s, i, act).threads[i]);
    }
  }

  lemma SaneFree(s: State, i: nat, act: Action)
    requires Sane(s) && i < |s.threads| && Ready(s, s.threads[i], act) && !Allocating(act) && !HandingOver(act)
    ensures Sane(Free(s, i, act))
  {
    var a := Free(s, i, act);
    assert ThreadOk(s.books, s.past.born, s.threads[i]);
    if a != s {
      ThreadsShrink(s.books, a.books, s.past.born, s.threads, i, a.threads[i]);
    }
  }

  lemma SaneHand(s: State, i: nat, act: Action)
    requires Sane(s) && i < |s.threads| && Ready(s, s.threads[i], act) && HandingOver(act)
    ensures Sane(Hand(s, i, act))
  {
    var a := Hand(s, i, act);
    if a != s {
      assert Shrinks(s.books, a.books) by {
        forall k | k in a.books.records ensures exists j :: j in s.books.records && j.1 == k.1 {
          assert k in s.books.records || (s.threads[i].sender, k.1) in s.books.records;
        }
      }
      ThreadsShrink(s.books, a.books, s.past.born, s.threads, i, a.threads[i]);
    }
  }

  lemma SaneStep(s: State, e: Event)
    requires Sane(s) && Enabled(s, e)
    ensures Sane(Apply(s, e))
  {
    if e.Step? {
      if Allocating(e.act) {
        SaneAlloc(s, e.i, e.act);
      } else if HandingOver(e.act) {
        SaneHand(s, e.i, e.act);
      } else {
        SaneFree(s, e.i, e.act);
      }
    }
  }

  // ---------------------------------------------------------------------
  // When the reservations stay right
  // ---------------------------------------------------------------------

  /** The tenant on record for the region, whoever holds the record. */
  ghost function TenantOf(records: map<(Pid, Rid), string>, r: Rid): Option<string> {
    if k :| k in records && k.1 == r then Some(records[k]) else None
  }

  /**
   A record made for a region that is already destroyed, or a region destroyed by
   a free that did not read the tenant now on record.
   */
  ghost predicate Disturbs(b: R.Books, pc: Pc, act: Action, t: string) {
    || (act.Record? && pc.Minting? && pc.r !in b.lens && pc.tenant == t && pc.size > 0)
    || (act.FreeDestroy? && pc.FreeKnown? && pc.r in b.lens && pc.size > 0
        && ((pc.paid == Some(t)) != (TenantOf(b.records, pc.r) == Some(t))))
  }

  /** The event takes the tenant's counter away from what the tenant holds. */
  ghost predicate Unsettles(s: State, e: Event, t: string) {
    || (e.Step? && e.i < |s.threads| && Disturbs(s.books, s.threads[e.i], e.act, t))
    || (e == QuotaClear(t, SharedRegion) && Used(s.quotas, t, SharedRegion) > 0)
  }

  /** A record of a destroyed region weighs nothing. */
  lemma PutDead(records: map<(Pid, Rid), string>, lens: map<Rid, Len>, k: (Pid, Rid), tenant: string, t: string)
    requires k !in records && k.1 !in lens
    ensures Total(R.Lengths(records[k := tenant], lens, t)) == Total(R.Lengths(records, lens, t))
  {
    var before, after := R.Lengths(records, lens, t), R.Lengths(records[k := tenant], lens, t);
    if tenant == t {
      TotalInsert(before, k, 0);
      assert after == before[k := 0];
    } else {
      assert after == before;
    }
  }

  lemma CutDead(records: map<(Pid, Rid), string>, lens: map<Rid, Len>, k: (Pid, Rid), t: string)
    requires k.1 !in lens
    ensures Total(R.Lengths(records - {k}, lens, t)) == Total(R.Lengths(records, lens, t))
  {
    var before, after := R.Lengths(records, lens, t), R.Lengths(records - {k}, lens, t);
    if k in before {
      TotalRemove(before, k);
      assert after == before - {k};
    } else {
      assert after == before;
    }
  }

  lemma KillRecorded(records: map<(Pid, Rid), string>, lens: map<Rid, Len>, k: (Pid, Rid), t: string)
    requires OneRecord(records) && k in records && records[k] == t && k.1 in lens
    ensures Total(R.Lengths(records, lens, t)) == Total(R.Lengths(records, lens - {k.1}, t)) + lens[k.1]
  {
    var before, after := R.Lengths(records, lens, t), R.Lengths(records, lens - {k.1}, t);
    TotalUpdate(before, k, 0);
    assert after == before[k := 0];
  }

  /** Destroying a region takes its length from the tenant on record. */
  lemma Kill(records: map<(Pid, Rid), string>, lens: map<Rid, Len>, r: Rid, t: string)
    requires OneRecord(records) && r in lens
    ensures Total(R.Lengths(records, lens, t)) ==
            Total(R.Lengths(records, lens - {r}, t)) + if TenantOf(records, r) == Some(t) then lens[r] else 0
  {
    if k :| k in records && k.1 == r && records[k] == t {
      KillRecorded(records, lens, k, t);
    } else {
      assert R.Lengths(records, lens, t) == R.Lengths(records, lens - {r}, t);
    }
  }

  /** Only the thread moves, and it carries what it carried. */
  lemma HeldKept(s: State, a: State, i: nat, pc: Pc, t: string)
    requires i < |s.threads| && a.threads == s.threads[i := pc] && Carried(pc, t) == Carried(s.threads[i], t)
    requires a.books.records == s.books.records && a.books.lens == s.books.lens && a.past.leaked == s.past.leaked
    ensures Held(a, t) == Held(s, t)
  {
    CarriedUpdate(s.threads, i, pc, t);
  }

  lemma ExactReserve(s: State, i: nat, p: Pid, tenant: string, size: Len, t: string)
    requires t != "" && Exact(s, t) && i < |s.threads| && s.threads[i].Idle?
    ensures Exact(Alloc(s, i, Reserve(p, tenant, size)), t)
  {
    CarriedUpdate(s.threads, i, Reserved(p, tenant, size), t);
    if Admits(s.quotas, tenant, SharedRegion, size) {
      R.UsedAfterConsume(s.quotas, tenant, size, t);
    }
  }

  lemma ExactAllocate(s: State, i: nat, r: Rid, t: string)
    requires Sane(s) && t != "" && Exact(s, t) && i < |s.threads| && Ready(s, s.threads[i], Allocate(r))
    ensures Exact(Alloc(s, i, Allocate(r)), t)
  {
    var pc := s.threads[i];
    CarriedUpdate(s.threads, i, Minting(pc.p, r, pc.tenant, pc.size), t);
    R.LengthsAdd(s.books.records, s.books.lens, (pc.p, r), pc.size, pc.tenant, t);
  }

  lemma ExactLost(s: State, i: nat, act: Action, t: string)
    requires t != "" && Exact(s, t)
    requires i < |s.threads| && Ready(s, s.threads[i], act) && (act.KernelFails? || act.PublishFails?)
    ensures Exact(Alloc(s, i, act), t)
  {
    CarriedUpdate(s.threads, i, Idle, t);
  }

  lemma ExactAlloc(s: State, i: nat, act: Action, t: string)
    requires Sane(s) && t != "" && Exact(s, t)
    requires i < |s.threads| && Ready(s, s.threads[i], act) && Allocating(act)
    ensures Exact(Alloc(s, i, act), t) <==> !Disturbs(s.books, s.threads[i], act, t)
  {
    if act.Reserve? {
      ExactReserve(s, i, act.p, act.tenant, act.size, t);
    } else if act.Allocate? {
      ExactAllocate(s, i, act.r, t);
    } else if act.Record? {
      ExactRecord(s, i, t);
    } else {
      ExactLost(s, i, act, t);
    }
  }

  lemma ExactRecord(s: State, i: nat, t: string)
    requires Sane(s) && t != "" && Exact(s, t) && i < |s.threads| && Ready(s, s.threads[i], Record)
    ensures Exact(Alloc(s, i, Record), t) <==> !Disturbs(s.books, s.threads[i], Record, t)
  {
    var pc, b := s.threads[i], s.books;
    CarriedUpdate(s.threads, i, Idle, t);
    assert ThreadOk(b, s.past.born, pc);
    assert (pc.p, pc.r) !in b.records;
    if pc.r in b.lens {
      R.LengthsPut(b.records, b.lens, (pc.p, pc.r), pc.tenant, t);
    } else {
      PutDead(b.records, b.lens, (pc.p, pc.r), pc.tenant, t);
    }
  }

  lemma ExactDestroy(s: State, i: nat, t: string)
    requires Sane(s) && t != "" && Exact(s, t) && i < |s.threads| && Ready(s, s.threads[i], FreeDestroy)
    ensures Exact(Free(s, i, FreeDestroy), t) <==> !Disturbs(s.books, s.threads[i], FreeDestroy, t)
  {
    var a, pc := Free(s, i, FreeDestroy), s.threads[i];
    CarriedUpdate(s.threads, i, a.threads[i], t);
    assert ThreadOk(s.books, s.past.born, pc);
    if pc.r in s.books.lens {
      Kill(s.books.records, s.books.lens, pc.r, t);
    }
  }

  lemma ExactRelease(s: State, i: nat, t: string)
    requires t != "" && Exact(s, t) && i < |s.threads| && Ready(s, s.threads[i], FreeRelease)
    ensures Exact(Free(s, i, FreeRelease), t)
  {
    var a, pc := Free(s, i, FreeRelease), s.threads[i];
    CarriedUpdate(s.threads, i, a.threads[i], t);
    if pc.paid.Some? {
      R.UsedAfterRelease(s.quotas, pc.paid.value, pc.size, t);
    }
  }

  /** The steps of a free that move no bytes. */
  lemma ExactQuiet(s: State, i: nat, act: Action, t: string)
    requires Sane(s) && t != "" && Exact(s, t) && i < |s.threads| && Ready(s, s.threads[i], act)
    requires act.FreeCheck? || act.FreeRead? || act.FreeRefused? || act.FreeDisown?
    ensures Exact(Free(s, i, act), t)
  {
    var a := Free(s, i, act);
    if a != s {
      HeldKept(s, a, i, a.threads[i], t);
    }
  }

  lemma ExactForget(s: State, i: nat, t: string)
    requires Sane(s) && t != "" && Exact(s, t) && i < |s.threads| && Ready(s, s.threads[i], FreeForget)
    ensures Exact(Free(s, i, FreeForget), t)
  {
    var pc := s.threads[i];
    CarriedUpdate(s.threads, i, Idle, t);
    assert ThreadOk(s.books, s.past.born, pc);
    CutDead(s.books.records, s.books.lens, (pc.p, pc.r), t);
  }

  lemma ExactFree(s: State, i: nat, act: Action, t: string)
    requires Sane(s) && t != "" && Exact(s, t)
    requires i < |s.threads| && Ready(s, s.threads[i], act) && !Allocating(act) && !HandingOver(act)
    ensures Exact(Free(s, i, act), t) <==> !Disturbs(s.books, s.threads[i], act, t)
  {
    if act.FreeDestroy? {
      ExactDestroy(s, i, t);
    } else if act.FreeRelease? {
      ExactRelease(s, i, t);
    } else if act.FreeForget? {
      ExactForget(s, i, t);
    } else {
      ExactQuiet(s, i, act, t);
    }
  }

  lemma ExactRekeyLive(s: State, to: Pid, sender: Pid, r: Rid, t: string)
    requires BooksOk(s.books, s.past.born) && t != "" && Exact(s, t)
    requires (sender, r) in s.books.records && r in s.books.lens && Held(Rekey(s, to, sender, r), t) <= U64_MAX
    ensures Exact(Rekey(s, to, sender, r), t)
  {
    var b, k := s.books, (sender, r);
    var from, dest := b.records[k], R.TenantName(s.tenants, to);
    assert (to, r) in b.records ==> (to, r) == k;
    R.HeldRekey(b, sender, to, r, dest, t);
    R.LengthsDrop(b.records, b.lens, k, t);
    if from != dest {
      R.QuotaHandoff(s.quotas, from, dest, b.lens[r], t, Held(s, t), true);
    }
  }

  lemma ExactRekeyDead(s: State, to: Pid, sender: Pid, r: Rid, t: string)
    requires BooksOk(s.books, s.past.born) && t != "" && Exact(s, t)
    requires (sender, r) in s.books.records && r !in s.books.lens
    ensures Exact(Rekey(s, to, sender, r), t)
  {
    var b, k := s.books, (sender, r);
    assert (to, r) in b.records ==> (to, r) == k;
    CutDead(b.records, b.lens, k, t);
    PutDead(b.records - {k}, b.lens, (to, r), R.TenantName(s.tenants, to), t);
  }

  lemma ExactRekey(s: State, i: nat, t: string)
    requires Sane(s) && t != "" && Exact(s, t) && i < |s.threads| && Ready(s, s.threads[i], HandRekey)
    requires Held(Hand(s, i, HandRekey), t) <= U64_MAX
    ensures Exact(Hand(s, i, HandRekey), t)
  {
    var a, pc := Hand(s, i, HandRekey), s.threads[i];
    var m := Rekey(s, pc.to, pc.sender, pc.r);
    HeldKept(m, a, i, a.threads[i], t);
    if (pc.sender, pc.r) in s.books.records {
      if pc.r in s.books.lens {
        ExactRekeyLive(s, pc.to, pc.sender, pc.r, t);
      } else {
        ExactRekeyDead(s, pc.to, pc.sender, pc.r, t);
      }
    }
  }

  lemma ExactOwn(s: State, i: nat, t: string)
    requires Exact(s, t) && i < |s.threads| && Ready(s, s.threads[i], HandOwn)
    ensures Exact(Hand(s, i, HandOwn), t)
  {
    HeldKept(s, Hand(s, i, HandOwn), i, Idle, t);
  }

  lemma ExactCheck(s: State, i: nat, act: Action, t: string)
    requires Exact(s, t) && i < |s.threads| && s.threads[i].Idle? && act.HandCheck?
    ensures Exact(Hand(s, i, act), t)
  {
    if R.Owns(s.books, act.sender, act.r) {
      HeldKept(s, Hand(s, i, act), i, Handing(act.to, act.sender, act.r), t);
    }
  }

  lemma ExactHand(s: State, i: nat, act: Action, t: string)
    requires Sane(s) && t != "" && Exact(s, t)
    requires i < |s.threads| && Ready(s, s.threads[i], act) && HandingOver(act)
    requires Held(Hand(s, i, act), t) <= U64_MAX
    ensures Exact(Hand(s, i, act), t)
  {
    if act.HandRekey? {
      ExactRekey(s, i, t);
    } else if act.HandOwn? {
      ExactOwn(s, i, t);
    } else {
      ExactCheck(s, i, act, t);
    }
  }

  lemma ExactStep(s: State, e: Event, t: string)
    requires Sane(s) && t != "" && Exact(s, t) && Enabled(s, e) && Held(Apply(s, e), t) <= U64_MAX
    ensures Exact(Apply(s, e), t) <==> !Unsettles(s, e, t)
  {
    if e.Step? {
      if Allocating(e.act) {
        ExactAlloc(s, e.i, e.act, t);
      } else if HandingOver(e.act) {
        ExactHand(s, e.i, e.act, t);
      } else {
        ExactFree(s, e.i, e.act, t);
      }
    }
  }

  // ---------------------------------------------------------------------
  // Runs
  // ---------------------------------------------------------------------

  /** A run of `n` host threads in which no tenant ever holds 2^64 bytes. */
  ghost predicate IsRun(n: nat, es: seq<Event>) {
    Small(After(n, es))
    && (es == [] || (IsRun(n, es[..|es| - 1]) && Enabled(After(n, es[..|es| - 1]), es[|es| - 1])))
  }

  ghost function After(n: nat, es: seq<Event>): State {
    if es == [] then Init(n)
    else
      var s := After(n, es[..|es| - 1]);
      if Enabled(s, es[|es| - 1]) then Apply(s, es[|es| - 1]) else s
  }

  lemma {:induction false} SaneAlways(n: nat, es: seq<Event>)
    requires IsRun(n, es)
    ensures Sane(After(n, es))
  {
    if es != [] {
      SaneAlways(n, es[..|es| - 1]);
      SaneStep(After(n, es[..|es| - 1]), es[|es| - 1]);
    }
  }

  ghost predicate ExactThroughout(n: nat, es: seq<Event>, t: string) {
    Exact(After(n, es), t) && (es == [] || ExactThroughout(n, es[..|es| - 1], t))
  }

  ghost predicate NeverUnsettled(n: nat, es: seq<Event>, t: string) {
    es == []
    || (NeverUnsettled(n, es[..|es| - 1], t) && !Unsettles(After(n, es[..|es| - 1]), es[|es| - 1], t))
  }

  lemma {:induction false} CarriedNone(n: nat, t: string)
    ensures CarriedBy(seq(n, _ => Idle), t) == 0
  {
    if n > 0 {
      CarriedNone(n - 1, t);
      assert seq(n, _ => Idle)[1..] == seq(n - 1, _ => Idle);
    }
  }

  /**
   Under every interleaving, a tenant's counter equals what the tenant holds
   throughout a run if and only if no free destroys a region whose record changed
   since the free read it, no record is made for a destroyed region, and no clear
   drops a positive count.
   */
  lemma {:induction false} ReservationsExactly(n: nat, es: seq<Event>, t: string)
    requires IsRun(n, es) && t != ""
    ensures ExactThroughout(n, es, t) <==> NeverUnsettled(n, es, t)
  {
    if es == [] {
      CarriedNone(n, t);
      assert R.Lengths(map[], map[], t) == map[];
    } else {
      var pre := es[..|es| - 1];
      ReservationsExactly(n, pre, t);
      if ExactThroughout(n, pre, t) {
        SaneAlways(n, pre);
        assert Held(After(n, es), t) <= U64_MAX;
        ExactStep(After(n, pre), es[|es| - 1], t);
      }
    }
  }

  // ---------------------------------------------------------------------
  // When ownership stays single
  // ---------------------------------------------------------------------

  predicate SingleOwners(b: R.Books) {
    forall r | r in b.lens :: r in b.owners && |b.owners[r]| == 1
  }

  /** The owner is added for a sender who is no longer the owner, next to another. */
  predicate Crowds(s: State, e: Event) {
    && e.Step? && e.act.HandOwn? && e.i < |s.threads| && s.threads[e.i].Rekeyed?
    && var pc := s.threads[e.i];
       pc.r in s.books.lens && pc.r in s.books.owners
       && pc.sender !in s.books.owners[pc.r] && pc.to !in s.books.owners[pc.r]
  }

  /** Passing a region on from its only owner, or from someone who is not. */
  lemma PassedOn(owners: set<Pid>, to: Pid, sender: Pid)
    requires |owners| == 1
    ensures |owners - {sender} + {to}| == 1 <==> sender in owners || to in owners
  {
    var x :| x in owners;
    R.Singleton(owners, x);
    if sender == x {
      assert owners - {sender} + {to} == {to};
    } else if to == x {
      assert owners - {sender} + {to} == {x};
    } else {
      assert owners - {sender} + {to} == {x, to};
    }
  }

  lemma OwnersStep(s: State, e: Event)
    requires Sane(s) && SingleOwners(s.books) && Enabled(s, e)
    ensures SingleOwners(Apply(s, e).books) <==> !Crowds(s, e)
  {
    if e.Step? {
      if e.act.HandOwn? {
        OwnersPassed(s, e.i);
      } else if Allocating(e.act) {
        OwnersAlloc(s, e.i, e.act);
      } else if !HandingOver(e.act) {
        OwnersFree(s, e.i, e.act);
      }
    }
  }

  lemma OwnersAlloc(s: State, i: nat, act: Action)
    requires SingleOwners(s.books) && i < |s.threads| && Ready(s, s.threads[i], act) && Allocating(act)
    ensures SingleOwners(Alloc(s, i, act).books)
  {
  }

  lemma OwnersFree(s: State, i: nat, act: Action)
    requires Sane(s) && SingleOwners(s.books)
    requires i < |s.threads| && Ready(s, s.threads[i], act) && !Allocating(act) && !HandingOver(act)
    ensures SingleOwners(Free(s, i, act).books)
  {
    assert ThreadOk(s.books, s.past.born, s.threads[i]);
  }

  lemma OwnersPassed(s: State, i: nat)
    requires Sane(s) && SingleOwners(s.books) && i < |s.threads| && Ready(s, s.threads[i], HandOwn)
    ensures SingleOwners(Hand(s, i, HandOwn).books) <==> !Crowds(s, Step(i, HandOwn))
  {
    var pc, a := s.threads[i], Hand(s, i, HandOwn);
    if pc.r in s.books.lens {
      PassedOn(s.books.owners[pc.r], pc.to, pc.sender);
      assert pc.r in a.books.lens;
    }
  }

  ghost predicate SingleThroughout(n: nat, es: seq<Event>) {
    SingleOwners(After(n, es).books) && (es == [] || SingleThroughout(n, es[..|es| - 1]))
  }

  ghost predicate NeverCrowded(n: nat, es: seq<Event>) {
    es == [] || (NeverCrowded(n, es[..|es| - 1]) && !Crowds(After(n, es[..|es| - 1]), es[|es| - 1]))
  }

  /**
   Every live region has exactly one owner throughout a run if and only if no
   handoff completes for a sender that has meanwhile stopped being the owner.
   */
  lemma {:induction false} OwnersExactly(n: nat, es: seq<Event>)
    requires IsRun(n, es)
    ensures SingleThroughout(n, es) <==> NeverCrowded(n, es)
  {
    if es != [] {
      var pre := es[..|es| - 1];
      OwnersExactly(n, pre);
      if SingleThroughout(n, pre) {
        SaneAlways(n, pre);
        OwnersStep(After(n, pre), es[|es| - 1]);
      }
    }
  }
}
