/**
 Who owns a region, read off the history of a run alone: allocations that were
 granted, frees by the owner, and handoffs in the order they were sent.
 */
module RegionOwners {
  import opened Common
  import opened Quota
  import opened Tenancy
  import opened Regions

  // ---------------------------------------------------------------------
  // Queues
  // ---------------------------------------------------------------------

  /** The items sent to the queue, in order. */
  function Sent(es: seq<Event>, q: Qid): seq<Item> {
    if es == [] then []
    else
      var before, e := Sent(es[..|es| - 1], q), es[|es| - 1];
      if e.Send? && e.q == q then before + [Item(e.p, e.value)] else before
  }

  /** How many of them have been received. */
  function Taken(es: seq<Event>, q: Qid): (n: nat)
    ensures n <= |Sent(es, q)|
  {
    if es == [] then 0
    else
      var rest, e := es[..|es| - 1], es[|es| - 1];
      if e.Recv? && e.q == q && Taken(rest, q) < |Sent(rest, q)| then Taken(rest, q) + 1 else Taken(rest, q)
  }

  /** A queue holds what was sent and not yet received, in the order it was sent. */
  lemma {:induction false} QueueIsSent(es: seq<Event>, q: Qid)
    requires IsRun(es)
    ensures q in After(es).queues ==> After(es).queues[q] == Sent(es, q)[Taken(es, q)..]
    ensures q !in After(es).queues ==> Sent(es, q) == []
  {
    if es != [] {
      QueueIsSent(es[..|es| - 1], q);
      QueueNext(After(es[..|es| - 1]), es[|es| - 1], q);
    }
  }

  lemma QueueNext(s: State, e: Event, q: Qid)
    requires Enabled(s, e)
    ensures q in Apply(s, e).queues <==> q in s.queues || e == CreateQueue(q)
    ensures q in s.queues ==>
              Apply(s, e).queues[q] ==
                if e.Send? && e.q == q then s.queues[q] + [Item(e.p, e.value)]
                else if e.Recv? && e.q == q && s.queues[q] != [] then s.queues[q][1..]
                else s.queues[q]
    ensures e == CreateQueue(q) ==> Apply(s, e).queues[q] == []
  {
  }

  // ---------------------------------------------------------------------
  // Owners
  // ---------------------------------------------------------------------

  /** The allocation is authorised, fits 32 bits and stays within the tenant's ceiling. */
  predicate Granted(s: State, p: Pid, serving: Option<string>, delegated: bool, pages: nat)
    requires p in s.tenants
  {
    var own, size := s.tenants[p], pages * 65536;
    var t := if serving.Some? then serving.value else if own.Some? then own.value else "";
    && (serving.None? || own.None? || serving == own || delegated)
    && size < 0x1_0000_0000
    && (t == "" || size == 0
        || Used(s.quotas, t, SharedRegion) + size <= Entry(s.quotas, (t, SharedRegion)).limit)
  }

  /** The process that holds the region. */
  ghost function Holder(es: seq<Event>, r: Rid): Option<Pid> {
    if es == [] then None
    else
      var rest, e := es[..|es| - 1], es[|es| - 1];
      var before := Holder(rest, r);
      match e
      case Alloc(p, serving, delegated, pages, o) =>
        if !o.KernelFails? && o.id == r && p in After(rest).tenants
           && Granted(After(rest), p, serving, delegated, pages) then Some(p) else before
      case Free(p, x) => if x == r && before == Some(p) then None else before
      case Recv(p, q) =>
        var items, n := Sent(rest, q), Taken(rest, q);
        if n < |items| && items[n].value == r && before == Some(items[n].sender) then Some(p) else before
      case _ => before
  }

  /** In every run the owner of a region is the one its history gives. */
  lemma {:induction false} OwnerIsHolder(es: seq<Event>, r: Rid, p: Pid)
    requires IsRun(es)
    ensures Owns(After(es).books, p, r) <==> Holder(es, r) == Some(p)
  {
    if es != [] {
      var rest, e := es[..|es| - 1], es[|es| - 1];
      OwnerIsHolder(rest, r, p);
      SoundAlways(rest);
      match e {
        case Alloc(x, serving, delegated, pages, o) => AllocOwns(After(rest), e, r, p);
        case Recv(x, q) =>
          QueueIsSent(rest, q);
          if Taken(rest, q) < |Sent(rest, q)| {
            OwnerIsHolder(rest, r, Sent(rest, q)[Taken(rest, q)].sender);
          }
          RecvOwns(After(rest), e, r, p);
        case Free(x, y) => FreeOwns(After(rest), x, y, r, p);
        case _ =>
      }
    }
  }

  lemma GrantedExactly(s: State, p: Pid, serving: Option<string>, delegated: bool, pages: nat)
    requires p in s.tenants
    ensures Granted(s, p, serving, delegated, pages) <==>
            var t := ServingTenant(s.tenants, p, serving, delegated);
            t.Some? && pages * PAGE < TWO_32 && Admits(s.quotas, t.value, SharedRegion, pages * PAGE)
  {
    PrincipalExactly(s.tenants[p], serving, delegated);
    var t := ServingTenant(s.tenants, p, serving, delegated);
    if t.Some? && pages * PAGE < TWO_32 {
      AdmitsExactly(s.quotas, t.value, SharedRegion, pages * PAGE);
    }
  }

  lemma AllocOwns(s: State, e: Event, r: Rid, p: Pid)
    requires Enabled(s, e) && e.Alloc?
    ensures Owns(Apply(s, e).books, p, r) <==>
            if !e.outcome.KernelFails? && e.outcome.id == r
               && Granted(s, e.p, e.serving, e.delegated, e.pages) then p == e.p
            else Owns(s.books, p, r)
  {
    GrantedExactly(s, e.p, e.serving, e.delegated, e.pages);
  }

  lemma FreeOwns(s: State, x: Pid, y: Rid, r: Rid, p: Pid)
    requires BooksOk(s.books, s.past.minted)
    ensures Owns(DoFree(s, x, y).books, p, r) <==> Owns(s.books, p, r) && !(x == p && y == r)
  {
    if Owns(s.books, x, y) {
      Singleton(s.books.owners[y], x);
      BooksDestroy(s.books, s.past.minted, x, y);
    }
  }

  lemma RecvOwns(s: State, e: Event, r: Rid, p: Pid)
    requires BooksOk(s.books, s.past.minted) && Enabled(s, e) && e.Recv?
    ensures Owns(Apply(s, e).books, p, r) <==>
            var items := s.queues[e.q];
            if items != [] && items[0].value == r && Owns(s.books, items[0].sender, r) then p == e.p
            else Owns(s.books, p, r)
  {
    var items := s.queues[e.q];
    if items != [] && Owns(s.books, items[0].sender, items[0].value) {
      Singleton(s.books.owners[items[0].value], items[0].sender);
    }
  }

  // ---------------------------------------------------------------------
  // Payers
  // ---------------------------------------------------------------------

  /** The tenant that pays for the region: the one it was allocated for, then that of whoever it is handed to. */
  ghost function Payer(es: seq<Event>, r: Rid): string {
    if es == [] then ""
    else
      var rest, e := es[..|es| - 1], es[|es| - 1];
      match e
      case Alloc(p, serving, delegated, pages, o) =>
        if o == Succeeds(r) && p in After(rest).tenants && Granted(After(rest), p, serving, delegated, pages) then
          (if serving.Some? then serving.value else NameOf(After(rest).tenants[p]))
        else Payer(rest, r)
      case Recv(p, q) =>
        var items, n := Sent(rest, q), Taken(rest, q);
        if n < |items| && items[n].value == r && Holder(rest, r) == Some(items[n].sender)
           && p in After(rest).tenants then NameOf(After(rest).tenants[p])
        else Payer(rest, r)
      case _ => Payer(rest, r)
  }

  /** A root process has no tenant, and its regions are charged to the empty name. */
  function NameOf(tenant: Option<string>): string {
    if tenant.Some? then tenant.value else ""
  }

  /** In every run the record of a region names the tenant its history says pays for it. */
  lemma {:induction false} RecordIsPayer(es: seq<Event>, p: Pid, r: Rid)
    requires IsRun(es) && (p, r) in After(es).books.records
    ensures After(es).books.records[(p, r)] == Payer(es, r)
  {
    var rest, e := es[..|es| - 1], es[|es| - 1];
    var s := After(rest);
    SoundAlways(rest);
    if (p, r) in s.books.records {
      RecordIsPayer(rest, p, r);
    }
    match e {
      case Alloc(x, serving, delegated, pages, o) => AllocPays(s, e, p, r);
      case Recv(x, q) =>
        QueueIsSent(rest, q);
        if s.queues[q] != [] {
          var item := s.queues[q][0];
          OwnerIsHolder(rest, r, item.sender);
          if (item.sender, r) in s.books.records {
            RecordIsPayer(rest, item.sender, r);
          }
        }
        RecvPays(s, e, p, r);
      case _ =>
    }
  }

  lemma AllocPays(s: State, e: Event, p: Pid, r: Rid)
    requires Enabled(s, e) && e.Alloc? && BooksOk(s.books, s.past.minted)
    requires (p, r) in Apply(s, e).books.records
    ensures if e.outcome == Succeeds(r) && Granted(s, e.p, e.serving, e.delegated, e.pages)
            then Apply(s, e).books.records[(p, r)] ==
                 (if e.serving.Some? then e.serving.value else NameOf(s.tenants[e.p]))
            else (p, r) in s.books.records && Apply(s, e).books.records[(p, r)] == s.books.records[(p, r)]
  {
    GrantedExactly(s, e.p, e.serving, e.delegated, e.pages);
    PrincipalExactly(s.tenants[e.p], e.serving, e.delegated);
    assert e.outcome == Succeeds(r) ==> (p, r) !in s.books.records;
  }

  lemma RecvPays(s: State, e: Event, p: Pid, r: Rid)
    requires Enabled(s, e) && e.Recv? && BooksOk(s.books, s.past.minted)
    requires (p, r) in Apply(s, e).books.records
    ensures var items := s.queues[e.q];
            if items != [] && items[0].value == r && Owns(s.books, items[0].sender, r)
            then Apply(s, e).books.records[(p, r)] == NameOf(s.tenants[e.p])
            else (p, r) in s.books.records && Apply(s, e).books.records[(p, r)] == s.books.records[(p, r)]
  {
    var items := s.queues[e.q];
    if items != [] && Owns(s.books, items[0].sender, items[0].value) {
      Singleton(s.books.owners[items[0].value], items[0].sender);
      assert forall k | k in s.books.records && k.1 == items[0].value :: k == (items[0].sender, items[0].value);
    }
  }
}
