/**
 Shared regions: ownership, tenant records and quota reservations under every
 run of alloc, free, send and recv hostcalls. A hostcall is one event.
 */
module Regions {
  import opened Common
  import opened Sums
  import opened Quota
  import opened Tenancy

  type Pid = nat
  type Rid = nat
  type Qid = nat

  /** A region length is a 32-bit value. */
  type Len = n: nat | n < TWO_32

  /** A queued handoff: the sending process and the value it sent. */
  datatype Item = Item(sender: Pid, value: Rid)

  /**
   The part of the runtime that regions touch. `lens` are the live kernel
   regions with their byte lengths, `owners` the owner sets of the
   `SharedRegion` class, `records` the `region_tenants` map.
   */
  datatype Books = Books(lens: map<Rid, Len>, owners: map<Rid, set<Pid>>, records: map<(Pid, Rid), string>)

  /**
   History: regions whose allocation succeeded, bytes reserved by allocations
   that then failed (per tenant), and whether a quota was ever cleared.
   */
  datatype Past = Past(minted: set<Rid>, leaked: map<string, nat>, cleared: bool)

  datatype State = State(tenants: map<Pid, Option<string>>, books: Books, quotas: Quotas,
                         queues: map<Qid, seq<Item>>, past: Past)

  datatype Outcome = Succeeds(id: Rid) | KernelFails | PublishFails(id: Rid)

  datatype Event =
    | Start(p: Pid, tenant: Option<string>)
    | Alloc(p: Pid, serving: Option<string>, delegated: bool, pages: nat, outcome: Outcome)
    | Free(p: Pid, r: Rid)
    | CreateQueue(q: Qid)
    | Send(p: Pid, q: Qid, value: Rid)
    | Recv(p: Pid, q: Qid)
    | QuotaSet(name: string, class_: ResourceClass, limit: U64)
    | QuotaClear(name: string, class_: ResourceClass)

  const PAGE := 65536

  // ---------------------------------------------------------------------
  // The hostcalls
  // ---------------------------------------------------------------------

  /** The tenant of a process, the empty name for a root process. */
  function TenantName(tenants: map<Pid, Option<string>>, p: Pid): string {
    if p in tenants && tenants[p].Some? then tenants[p].value else ""
  }

  /** The tenant an allocation is minted for. */
  function ServingTenant(tenants: map<Pid, Option<string>>, p: Pid, serving: Option<string>, delegated: bool)
    : Option<string>
    requires p in tenants
  {
    Principal(tenants[p], serving, delegated)
  }

  predicate Owns(books: Books, p: Pid, r: Rid) {
    r in books.owners && p in books.owners[r]
  }

  /** The ids a kernel hands out are fresh. */
  predicate Fresh(s: State, r: Rid) {
    r !in s.books.lens && r !in s.books.owners && r !in s.past.minted
  }

  predicate Enabled(s: State, e: Event) {
    match e
    case Start(p, _) => p !in s.tenants
    case Alloc(p, _, _, _, o) => p in s.tenants && (o.KernelFails? || Fresh(s, o.id))
    case Free(p, _) => p in s.tenants
    case CreateQueue(q) => q !in s.queues
    case Send(p, q, _) => p in s.tenants && q in s.queues
    case Recv(p, q) => p in s.tenants && q in s.queues
    case QuotaSet(_, _, _) => true
    case QuotaClear(_, _) => true
  }

  /** Claiming, publishing and recording a freshly allocated region. */
  function Mint(books: Books, p: Pid, r: Rid, size: Len, tenant: string, published: bool): Books {
    Books(books.lens[r := size], books.owners[r := {p}],
          if published then books.records[(p, r) := tenant] else books.records)
  }

  /** Removing `p` from the owner set, and the set once it is empty. */
  function Disown(owners: map<Rid, set<Pid>>, p: Pid, r: Rid): map<Rid, set<Pid>> {
    if r !in owners then owners
    else if owners[r] - {p} == {} then owners - {r}
    else owners[r := owners[r] - {p}]
  }

  function Destroy(books: Books, p: Pid, r: Rid): Books {
    Books(books.lens - {r}, Disown(books.owners, p, r), books.records - {(p, r)})
  }

  function Leak(past: Past, tenant: string, size: nat): Past {
    past.(leaked := past.leaked[tenant := size + if tenant in past.leaked then past.leaked[tenant] else 0])
  }

  /** `AllocRegion`: authorise, size, reserve, allocate, claim, publish, record. */
  function DoAlloc(s: State, p: Pid, serving: Option<string>, delegated: bool, pages: nat, o: Outcome): State
    requires Enabled(s, Alloc(p, serving, delegated, pages, o))
  {
    var tenant := ServingTenant(s.tenants, p, serving, delegated);
    var size := pages * PAGE;
    if tenant.None? || size >= TWO_32 || !Admits(s.quotas, tenant.value, SharedRegion, size) then s
    else Reserved(s, p, tenant.value, size, o)
  }

  /** The rest of `AllocRegion` once the reservation is made. */
  function Reserved(s: State, p: Pid, tenant: string, size: Len, o: Outcome): State {
    var books := if o.KernelFails? then s.books else Mint(s.books, p, o.id, size, tenant, o.Succeeds?);
    var past :=
      if o.Succeeds? then s.past.(minted := s.past.minted + {o.id}) else Leak(s.past, tenant, size);
    s.(quotas := Consume(s.quotas, tenant, SharedRegion, size), books := books, past := past)
  }

  /** `FreeRegion`: only an owner may free; the reservation returns to the recorded tenant. */
  function DoFree(s: State, p: Pid, r: Rid): State {
    if !Owns(s.books, p, r) || r !in s.books.lens then s
    else
      s.(books := Destroy(s.books, p, r),
         quotas := if (p, r) in s.books.records
                   then Release(s.quotas, s.books.records[(p, r)], SharedRegion, s.books.lens[r]) else s.quotas)
  }

  /** `transfer_region_ownership_on_recv`: the record and its reservation follow the region. */
  function DoTransfer(s: State, to: Pid, sender: Pid, r: Rid): State {
    if !Owns(s.books, sender, r) then s
    else
      var owners := s.books.owners[r := s.books.owners[r] - {sender} + {to}];
      if (sender, r) !in s.books.records then s.(books := s.books.(owners := owners))
      else
        var from, dest := s.books.records[(sender, r)], TenantName(s.tenants, to);
        s.(books := s.books.(owners := owners, records := (s.books.records - {(sender, r)})[(to, r) := dest]),
           quotas := if from != dest && r in s.books.lens
                     then Consume(Release(s.quotas, from, SharedRegion, s.books.lens[r]), dest, SharedRegion,
                                  s.books.lens[r])
                     else s.quotas)
  }

  function Apply(s: State, e: Event): State
    requires Enabled(s, e)
  {
    match e
    case Start(p, tenant) => s.(tenants := s.tenants[p := tenant])
    case Alloc(p, serving, delegated, pages, o) => DoAlloc(s, p, serving, delegated, pages, o)
    case Free(p, r) => DoFree(s, p, r)
    case CreateQueue(q) => s.(queues := s.queues[q := []])
    case Send(p, q, value) => s.(queues := s.queues[q := s.queues[q] + [Item(p, value)]])
    case Recv(p, q) =>
      if s.queues[q] == [] then s
      else
        var item := s.queues[q][0];
        DoTransfer(s.(queues := s.queues[q := s.queues[q][1..]]), p, item.sender, item.value)
    case QuotaSet(tenant, class_, limit) => s.(quotas := Author(s.quotas, tenant, class_, limit))
    case QuotaClear(tenant, class_) =>
      s.(quotas := s.quotas - {(tenant, class_)}, past := s.past.(cleared := true))
  }

  // ---------------------------------------------------------------------
  // Ownership
  // ---------------------------------------------------------------------

  ghost predicate BooksOk(b: Books, minted: set<Rid>) {
    && b.owners.Keys == b.lens.Keys
    && (forall r | r in b.owners :: |b.owners[r]| == 1)
    && (forall k | k in b.records :: k.1 in b.owners && b.owners[k.1] == {k.0})
    && (forall r, p | r in b.owners && p in b.owners[r] && r in minted :: (p, r) in b.records)
  }

  lemma Singleton<T>(s: set<T>, x: T)
    requires |s| == 1 && x in s
    ensures s == {x}
  {
    assert |s - {x}| == 0;
  }

  lemma BooksMint(b: Books, minted: set<Rid>, p: Pid, r: Rid, size: Len, tenant: string, published: bool)
    requires BooksOk(b, minted) && r !in b.lens && r !in minted
    ensures BooksOk(Mint(b, p, r, size, tenant, published), if published then minted + {r} else minted)
  {
  }

  lemma BooksDestroy(b: Books, minted: set<Rid>, p: Pid, r: Rid)
    requires BooksOk(b, minted) && r in b.owners && p in b.owners[r]
    ensures BooksOk(Destroy(b, p, r), minted)
    ensures Disown(b.owners, p, r) == b.owners - {r}
  {
    Singleton(b.owners[r], p);
    assert b.owners[r] - {p} == {};
  }

  lemma BooksRekey(b: Books, minted: set<Rid>, to: Pid, sender: Pid, r: Rid, dest: string)
    requires BooksOk(b, minted) && r in b.owners && b.owners[r] == {sender}
    ensures BooksOk(b.(owners := b.owners[r := {to}],
                       records := (b.records - {(sender, r)})[(to, r) := dest]), minted)
    ensures (sender, r) !in b.records ==> BooksOk(b.(owners := b.owners[r := {to}]), minted)
  {
  }

  lemma BooksTransfer(s: State, to: Pid, sender: Pid, r: Rid)
    requires BooksOk(s.books, s.past.minted)
    ensures BooksOk(DoTransfer(s, to, sender, r).books, s.past.minted)
  {
    if Owns(s.books, sender, r) {
      Singleton(s.books.owners[r], sender);
      assert {sender} - {sender} + {to} == {to};
      BooksRekey(s.books, s.past.minted, to, sender, r, TenantName(s.tenants, to));
    }
  }

  // ---------------------------------------------------------------------
  // Reservations
  // ---------------------------------------------------------------------

  /** The lengths recorded under a tenant, by record. */
  ghost function Recorded(b: Books, tenant: string): map<(Pid, Rid), nat> {
    Lengths(b.records, b.lens, tenant)
  }

  ghost function Lengths(records: map<(Pid, Rid), string>, lens: map<Rid, Len>, tenant: string)
    : map<(Pid, Rid), nat>
  {
    map k | k in records && records[k] == tenant :: if k.1 in lens then lens[k.1] else 0
  }

  lemma LengthsAdd(records: map<(Pid, Rid), string>, lens: map<Rid, Len>, k: (Pid, Rid), size: Len,
                   tenant: string, t: string)
    requires forall j | j in records :: j.1 != k.1
    ensures Lengths(records, lens[k.1 := size], t) == Lengths(records, lens, t)
    ensures Total(Lengths(records[k := tenant], lens[k.1 := size], t))
            == Total(Lengths(records, lens, t)) + if t == tenant then size else 0
  {
    assert k !in records;
    LengthsPut(records, lens[k.1 := size], k, tenant, t);
  }

  lemma LengthsCut(records: map<(Pid, Rid), string>, lens: map<Rid, Len>, k: (Pid, Rid), t: string)
    requires forall j | j in records && j.1 == k.1 :: j == k
    requires k.1 in lens
    ensures Total(Lengths(records, lens, t)) == Total(Lengths(records - {k}, lens - {k.1}, t))
              + if k in records && records[k] == t then lens[k.1] else 0
  {
    var before, after := Lengths(records, lens, t), Lengths(records - {k}, lens - {k.1}, t);
    if k in records && records[k] == t {
      TotalRemove(before, k);
      assert after == before - {k};
    } else {
      assert after == before;
    }
  }

  function LeakedBy(past: Past, tenant: string): nat {
    if tenant in past.leaked then past.leaked[tenant] else 0
  }

  /** What a tenant holds: recorded lengths and bytes lost to failed allocations. */
  ghost function Held(s: State, tenant: string): nat {
    Total(Recorded(s.books, tenant)) + LeakedBy(s.past, tenant)
  }

  ghost predicate QuotaOk(s: State, tenant: string) {
    var used := Used(s.quotas, tenant, SharedRegion);
    used <= Held(s, tenant) && (!s.past.cleared ==> used == Held(s, tenant))
  }

  /** The sums stay below 2^64, so no counter saturates. */
  ghost predicate Small(s: State) {
    forall tenant :: Held(s, tenant) <= U64_MAX
  }

  lemma HeldMint(s: State, p: Pid, r: Rid, size: Len, tenant: string, t: string)
    requires BooksOk(s.books, s.past.minted) && r !in s.books.lens
    ensures var b := Mint(s.books, p, r, size, tenant, true);
            Total(Recorded(b, t)) == Total(Recorded(s.books, t)) + if t == tenant then size else 0
    ensures Recorded(Mint(s.books, p, r, size, tenant, false), t) == Recorded(s.books, t)
  {
    LengthsAdd(s.books.records, s.books.lens, (p, r), size, tenant, t);
  }

  lemma HeldDestroy(s: State, p: Pid, r: Rid, t: string)
    requires BooksOk(s.books, s.past.minted) && Owns(s.books, p, r) && r in s.books.lens
    ensures var b := Destroy(s.books, p, r);
            Total(Recorded(s.books, t)) == Total(Recorded(b, t))
              + if (p, r) in s.books.records && s.books.records[(p, r)] == t then s.books.lens[r] else 0
  {
    forall k | k in s.books.records && k.1 == r ensures k == (p, r) {
      assert s.books.owners[r] == {k.0};
    }
    LengthsCut(s.books.records, s.books.lens, (p, r), t);
  }

  lemma LengthsDrop(records: map<(Pid, Rid), string>, lens: map<Rid, Len>, k: (Pid, Rid), t: string)
    requires k in records && k.1 in lens
    ensures Total(Lengths(records, lens, t)) == Total(Lengths(records - {k}, lens, t))
              + if records[k] == t then lens[k.1] else 0
  {
    var before, after := Lengths(records, lens, t), Lengths(records - {k}, lens, t);
    if records[k] == t {
      TotalRemove(before, k);
      assert after == before - {k};
    } else {
      assert after == before;
    }
  }

  lemma LengthsPut(records: map<(Pid, Rid), string>, lens: map<Rid, Len>, k: (Pid, Rid), dest: string, t: string)
    requires k !in records && k.1 in lens
    ensures Total(Lengths(records[k := dest], lens, t)) == Total(Lengths(records, lens, t))
              + if dest == t then lens[k.1] else 0
  {
    var before, after := Lengths(records, lens, t), Lengths(records[k := dest], lens, t);
    if dest == t {
      TotalInsert(before, k, lens[k.1]);
      assert after == before[k := lens[k.1]];
    } else {
      assert after == before;
    }
  }

  /** Moving a record moves its length from one tenant's total to the other's. */
  lemma HeldRekey(b: Books, sender: Pid, to: Pid, r: Rid, dest: string, t: string)
    requires (sender, r) in b.records && r in b.lens && (to == sender || (to, r) !in b.records)
    ensures Total(Lengths((b.records - {(sender, r)})[(to, r) := dest], b.lens, t))
              + (if b.records[(sender, r)] == t then b.lens[r] else 0)
            == Total(Recorded(b, t)) + if dest == t then b.lens[r] else 0
  {
    LengthsDrop(b.records, b.lens, (sender, r), t);
    LengthsPut(b.records - {(sender, r)}, b.lens, (to, r), dest, t);
  }

  lemma UsedAfterConsume(q: Quotas, tenant: string, amount: U64, t: string)
    requires t != "" && (t == tenant ==> Used(q, t, SharedRegion) + amount <= U64_MAX)
    ensures Used(Consume(q, tenant, SharedRegion, amount), t, SharedRegion)
            == Used(q, t, SharedRegion) + if t == tenant then amount else 0
  {
  }

  lemma UsedAfterRelease(q: Quotas, tenant: string, amount: U64, t: string)
    requires t != ""
    ensures Used(Release(q, tenant, SharedRegion, amount), t, SharedRegion)
            == if t == tenant then SaturatingSub(Used(q, t, SharedRegion), amount) else Used(q, t, SharedRegion)
  {
  }

  lemma QuotaReserved(s: State, p: Pid, tenant: string, size: Len, o: Outcome, t: string)
    requires BooksOk(s.books, s.past.minted) && t != "" && QuotaOk(s, t)
    requires Admits(s.quotas, tenant, SharedRegion, size) && (o.KernelFails? || Fresh(s, o.id))
    ensures QuotaOk(Reserved(s, p, tenant, size, o), t)
  {
    UsedAfterConsume(s.quotas, tenant, size, t);
    if !o.KernelFails? {
      HeldMint(s, p, o.id, size, tenant, t);
    }
  }

  lemma QuotaFree(s: State, p: Pid, r: Rid, t: string)
    requires BooksOk(s.books, s.past.minted) && Small(s) && t != "" && QuotaOk(s, t)
    ensures QuotaOk(DoFree(s, p, r), t)
  {
    if Owns(s.books, p, r) && r in s.books.lens {
      HeldDestroy(s, p, r, t);
      assert Held(s, t) <= U64_MAX;
    }
  }

  /** The quota side of a handoff between two tenants. */
  lemma QuotaHandoff(q: Quotas, from: string, dest: string, len: Len, t: string, held: nat, exact: bool)
    requires t != "" && from != dest
    requires Used(q, t, SharedRegion) <= held && (exact ==> Used(q, t, SharedRegion) == held)
    requires t == from ==> len <= held
    requires t == dest ==> held + len <= U64_MAX
    ensures var used := Used(Consume(Release(q, from, SharedRegion, len), dest, SharedRegion, len), t, SharedRegion);
            var now := if t == from then held - len else if t == dest then held + len else held;
            used <= now && (exact ==> used == now)
  {
    UsedAfterRelease(q, from, len, t);
    UsedAfterConsume(Release(q, from, SharedRegion, len), dest, len, t);
  }

  lemma QuotaTransfer(s: State, to: Pid, sender: Pid, r: Rid, t: string)
    requires BooksOk(s.books, s.past.minted) && t != "" && QuotaOk(s, t)
    requires Small(s) && Small(DoTransfer(s, to, sender, r))
    ensures QuotaOk(DoTransfer(s, to, sender, r), t)
  {
    if Owns(s.books, sender, r) && (sender, r) in s.books.records {
      var from, dest := s.books.records[(sender, r)], TenantName(s.tenants, to);
      var s', len := DoTransfer(s, to, sender, r), s.books.lens[r];
      HeldRekey(s.books, sender, to, r, dest, t);
      HeldRekey(s.books, sender, to, r, dest, from);
      assert Held(s, from) <= U64_MAX && Held(s', t) <= U64_MAX && Held(s', dest) <= U64_MAX;
      if from != dest {
        QuotaHandoff(s.quotas, from, dest, len, t, Held(s, t), !s.past.cleared);
      }
    }
  }

  ghost predicate Sound(s: State) {
    BooksOk(s.books, s.past.minted) && forall t | t != "" :: QuotaOk(s, t)
  }

  lemma SoundStep(s: State, e: Event)
    requires Sound(s) && Small(s) && Enabled(s, e) && Small(Apply(s, e))
    ensures Sound(Apply(s, e))
  {
    var r := Apply(s, e);
    match e
    case Alloc(p, serving, delegated, pages, o) =>
      if !o.KernelFails? && pages * PAGE < TWO_32 {
        BooksMint(s.books, s.past.minted, p, o.id, pages * PAGE,
                  ServingTenantOr(s, e), o.Succeeds?);
      }
      forall t | t != "" ensures QuotaOk(r, t) {
        if r != s { QuotaReserved(s, p, ServingTenantOr(s, e), pages * PAGE, o, t); }
      }
    case Free(p, id) =>
      if Owns(s.books, p, id) { BooksDestroy(s.books, s.past.minted, p, id); }
      forall t | t != "" ensures QuotaOk(r, t) { QuotaFree(s, p, id, t); }
    case Recv(p, q) =>
      if s.queues[q] != [] {
        var item := s.queues[q][0];
        var m := s.(queues := s.queues[q := s.queues[q][1..]]);
        BooksTransfer(m, p, item.sender, item.value);
        SmallFrame(s, m);
        forall t | t != "" ensures QuotaOk(r, t) {
          assert QuotaOk(s, t);
          QuotaTransfer(m, p, item.sender, item.value, t);
        }
      }
    case _ =>
      forall t | t != "" ensures QuotaOk(r, t) { assert QuotaOk(s, t); }
  }

  function ServingTenantOr(s: State, e: Event): string
    requires e.Alloc? && e.p in s.tenants
  {
    var tenant := ServingTenant(s.tenants, e.p, e.serving, e.delegated);
    if tenant.Some? then tenant.value else ""
  }

  lemma SmallFrame(s: State, m: State)
    requires Small(s) && m.books == s.books && m.past == s.past
    ensures Small(m)
  {
    forall t ensures Held(m, t) <= U64_MAX { assert Held(s, t) <= U64_MAX; }
  }

  // ---------------------------------------------------------------------
  // Runs
  // ---------------------------------------------------------------------

  const START := State(map[], Books(map[], map[], map[]), map[], map[], Past({}, map[], false))

  /** A run in which no tenant ever holds 2^64 bytes. */
  ghost predicate IsRun(es: seq<Event>) {
    Small(After(es))
    && (es == [] || (IsRun(es[..|es| - 1]) && Enabled(After(es[..|es| - 1]), es[|es| - 1])))
  }

  ghost function After(es: seq<Event>): State {
    if es == [] then START
    else
      var s := After(es[..|es| - 1]);
      if Enabled(s, es[|es| - 1]) then Apply(s, es[|es| - 1]) else s
  }

  lemma {:induction false} SoundAlways(es: seq<Event>)
    requires IsRun(es)
    ensures Sound(After(es))
  {
    if es != [] {
      SoundAlways(es[..|es| - 1]);
      SoundStep(After(es[..|es| - 1]), es[|es| - 1]);
    }
  }

  /**
   Every live region has exactly one owner. One whose allocation succeeded has
   exactly one tenant record, and it is keyed by that owner.
   */
  lemma OneOwnerOneRecord(es: seq<Event>, r: Rid)
    requires IsRun(es) && r in After(es).books.lens
    ensures r in After(es).books.owners
    ensures exists p ::
              && After(es).books.owners[r] == {p}
              && (forall k | k in After(es).books.records && k.1 == r :: k == (p, r))
              && (r in After(es).past.minted ==> (p, r) in After(es).books.records)
  {
    SoundAlways(es);
    var b := After(es).books;
    var p :| p in b.owners[r];
    Singleton(b.owners[r], p);
  }

  /**
   Conservation of reservations. Without a `QuotaClear`, a tenant's usage is
   what its records sum to plus what failed allocations lost; with it, at most
   that. So the usage is exactly the recorded sum if and only if no allocation
   for the tenant failed after its reservation.
   */
  lemma UsageIsRecorded(es: seq<Event>, tenant: string)
    requires IsRun(es) && tenant != ""
    ensures var s := After(es);
            var used := Used(s.quotas, tenant, SharedRegion);
            && used <= Total(Recorded(s.books, tenant)) + LeakedBy(s.past, tenant)
            && (!s.past.cleared ==>
                  (used == Total(Recorded(s.books, tenant)) <==> LeakedBy(s.past, tenant) == 0))
  {
    SoundAlways(es);
    assert QuotaOk(After(es), tenant);
  }

  // ---------------------------------------------------------------------
  // A reservation that is lost
  // ---------------------------------------------------------------------

  /** A process of tenant "a" asks for memory that the kernel then cannot give. */
  function Refused(pages: nat): seq<Event> {
    [Start(1, Some("a"))] + [Alloc(1, None, false, pages, KernelFails)]
  }

  function RefusedState(size: Len): State {
    START.(tenants := map[1 := Some("a")], quotas := map[("a", SharedRegion) := Counter(U64_MAX, size)],
           past := Past({}, map["a" := size], false))
  }

  lemma NothingRecorded(s: State, t: string)
    requires s.books.records == map[]
    ensures Total(Recorded(s.books, t)) == 0
  {
    assert Recorded(s.books, t) == map[];
  }

  lemma NothingHeld(s: State)
    requires s.books.records == map[] && s.past.leaked == map[]
    ensures Small(s)
  {
    forall t ensures Held(s, t) == 0 { NothingRecorded(s, t); }
  }

  lemma RefusedIsSmall(size: Len)
    ensures Small(RefusedState(size))
  {
    forall t ensures Held(RefusedState(size), t) < TWO_32 { NothingRecorded(RefusedState(size), t); }
  }

  lemma RefusedStep(pages: nat)
    requires pages * PAGE < TWO_32
    ensures var s, e := START.(tenants := map[1 := Some("a")]), Alloc(1, None, false, pages, KernelFails);
            Enabled(s, e) && Apply(s, e) == RefusedState(pages * PAGE)
  {
    var s := START.(tenants := map[1 := Some("a")]);
    assert ServingTenant(s.tenants, 1, None, false) == Some("a");
    assert Admits(s.quotas, "a", SharedRegion, pages * PAGE);
  }

  lemma RefusedRun(pages: nat)
    requires pages * PAGE < TWO_32
    ensures IsRun(Refused(pages)) && After(Refused(pages)) == RefusedState(pages * PAGE)
  {
    var s1 := START.(tenants := map[1 := Some("a")]);
    NothingHeld(START);
    NothingHeld(s1);
    RunMore([], START, Start(1, Some("a")));
    assert [] + [Start(1, Some("a"))] == [Start(1, Some("a"))];
    RefusedIsSmall(pages * PAGE);
    RefusedStep(pages);
    RunMore([Start(1, Some("a"))], s1, Alloc(1, None, false, pages, KernelFails));
  }

  lemma RunMore(es: seq<Event>, s: State, e: Event)
    requires IsRun(es) && After(es) == s && Enabled(s, e) && Small(Apply(s, e))
    ensures IsRun(es + [e]) && After(es + [e]) == Apply(s, e)
  {
    assert (es + [e])[..|es + [e]| - 1] == es;
  }

  /** The bytes of a refused allocation stay charged with nothing to show for them. */
  lemma RefusedStaysCharged(pages: nat)
    requires pages * PAGE < TWO_32
    ensures IsRun(Refused(pages))
    ensures var s := After(Refused(pages));
            && Used(s.quotas, "a", SharedRegion) == pages * PAGE
            && Total(Recorded(s.books, "a")) == 0 && s.books.lens == map[]
  {
    RefusedRun(pages);
    NothingRecorded(RefusedState(pages * PAGE), "a");
  }

  // ---------------------------------------------------------------------
  // Whom an allocation is for
  // ---------------------------------------------------------------------

  /** The process may have the allocation charged to the tenant. */
  predicate MayMintFor(own: Option<string>, serving: Option<string>, delegated: bool, t: string) {
    if own == Some(t) then serving == None || serving == Some(t)
    else serving == Some(t) && (own.None? || delegated)
  }

  /**
   In every run, an allocation touches no counter and no record of a tenant unless
   it is the process's own, or one it asked for as a root process or by delegation.
   */
  lemma AllocTouchesOnly(es: seq<Event>, p: Pid, serving: Option<string>, delegated: bool, pages: nat, o: Outcome,
                         t: string)
    requires IsRun(es + [Alloc(p, serving, delegated, pages, o)]) && t != ""
    ensures p in After(es).tenants
    ensures var s, r := After(es), After(es + [Alloc(p, serving, delegated, pages, o)]);
            MayMintFor(s.tenants[p], serving, delegated, t)
            || (&& Used(r.quotas, t, SharedRegion) == Used(s.quotas, t, SharedRegion)
                && LeakedBy(r.past, t) == LeakedBy(s.past, t)
                && forall k :: (k in r.books.records && r.books.records[k] == t)
                               <==> (k in s.books.records && s.books.records[k] == t))
  {
    var e := Alloc(p, serving, delegated, pages, o);
    assert (es + [e])[..|es + [e]| - 1] == es;
    SoundAlways(es);
    if !MayMintFor(After(es).tenants[p], serving, delegated, t) {
      AllocTouches(After(es), p, serving, delegated, pages, o, t);
    }
  }

  /** A reservation for one tenant leaves another's counters and records alone. */
  lemma ReservedTouches(s: State, p: Pid, tenant: string, size: Len, o: Outcome, t: string)
    requires BooksOk(s.books, s.past.minted) && (o.KernelFails? || Fresh(s, o.id)) && t != "" && tenant != t
    ensures var r := Reserved(s, p, tenant, size, o);
            && Used(r.quotas, t, SharedRegion) == Used(s.quotas, t, SharedRegion)
            && LeakedBy(r.past, t) == LeakedBy(s.past, t)
            && forall k :: (k in r.books.records && r.books.records[k] == t)
                           <==> (k in s.books.records && s.books.records[k] == t)
  {
    if !o.KernelFails? {
      assert forall k | k in s.books.records :: k.1 != o.id;
    }
  }

  lemma AllocTouches(s: State, p: Pid, serving: Option<string>, delegated: bool, pages: nat, o: Outcome, t: string)
    requires Enabled(s, Alloc(p, serving, delegated, pages, o)) && t != ""
    requires BooksOk(s.books, s.past.minted) && !MayMintFor(s.tenants[p], serving, delegated, t)
    ensures var r := DoAlloc(s, p, serving, delegated, pages, o);
            && Used(r.quotas, t, SharedRegion) == Used(s.quotas, t, SharedRegion)
            && LeakedBy(r.past, t) == LeakedBy(s.past, t)
            && forall k :: (k in r.books.records && r.books.records[k] == t)
                           <==> (k in s.books.records && s.books.records[k] == t)
  {
    PrincipalExactly(s.tenants[p], serving, delegated);
    var tenant := ServingTenant(s.tenants, p, serving, delegated);
    if tenant.Some? && pages * PAGE < TWO_32 {
      ReservedTouches(s, p, tenant.value, pages * PAGE, o, t);
    }
  }
}
