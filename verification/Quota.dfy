/**
 The host-held quota table: saturating 64-bit counters per tenant and resource
 class. An entry that was never authored is unlimited but tracked.
 */
module Quota {
  import opened Common

  datatype ResourceClass =
    | SharedRegion | SharedMapping | Signal | TcpListener | TcpStream | UdpSocket | DurableLog
    | BlobStore | Process | ActivityLog | MeteringStream | GuestLog | HostQueue | Cpu

  datatype Counter = Counter(limit: U64, used: U64)

  type Key = (string, ResourceClass)

  type Quotas = map<Key, Counter>

  const UNLIMITED := Counter(U64_MAX, 0)

  function SaturatingAdd(a: U64, b: U64): U64 {
    if a + b <= U64_MAX then a + b else U64_MAX
  }

  function SaturatingSub(a: U64, b: U64): U64 {
    if b <= a then a - b else 0
  }

  /** The counter of a key, with the implicit unlimited entry. */
  function Entry(q: Quotas, k: Key): Counter {
    if k in q then q[k] else UNLIMITED
  }

  /** What `used` reports: zero without an entry. */
  function Used(q: Quotas, tenant: string, class_: ResourceClass): U64 {
    Entry(q, (tenant, class_)).used
  }

  predicate Admits(q: Quotas, tenant: string, class_: ResourceClass, amount: U64) {
    var c := Entry(q, (tenant, class_));
    tenant == "" || amount <= SaturatingSub(c.limit, c.used)
  }

  /** The table after `force_consume`, and after an admitted `try_consume`. */
  function Consume(q: Quotas, tenant: string, class_: ResourceClass, amount: U64): Quotas {
    if tenant == "" then q
    else
      var c := Entry(q, (tenant, class_));
      q[(tenant, class_) := c.(used := SaturatingAdd(c.used, amount))]
  }

  function Release(q: Quotas, tenant: string, class_: ResourceClass, amount: U64): Quotas {
    if tenant == "" || (tenant, class_) !in q then q
    else
      var c := q[(tenant, class_)];
      q[(tenant, class_) := c.(used := SaturatingSub(c.used, amount))]
  }

  function Author(q: Quotas, tenant: string, class_: ResourceClass, limit: U64): Quotas {
    q[(tenant, class_) := Entry(q, (tenant, class_)).(limit := limit)]
  }

  /** Exactly the amounts within the ceiling are admitted; the root tenant is not metered. */
  lemma AdmitsExactly(q: Quotas, tenant: string, class_: ResourceClass, amount: U64)
    ensures Admits(q, tenant, class_, amount) <==>
            tenant == "" || amount == 0 || Used(q, tenant, class_) + amount <= Entry(q, (tenant, class_)).limit
  {
  }

  /**
   An admitted reservation never pushes the counter past its ceiling or into
   saturation, and releasing it gives the old usage back.
   */
  lemma AdmittedIsExact(q: Quotas, tenant: string, class_: ResourceClass, amount: U64)
    requires tenant != "" && Admits(q, tenant, class_, amount)
    ensures Used(Consume(q, tenant, class_, amount), tenant, class_) == Used(q, tenant, class_) + amount
    ensures amount > 0 ==>
              Used(Consume(q, tenant, class_, amount), tenant, class_) <= Entry(q, (tenant, class_)).limit
    ensures Used(Release(Consume(q, tenant, class_, amount), tenant, class_, amount), tenant, class_)
            == Used(q, tenant, class_)
  {
  }

  class QuotaTable {
    var quotas: Quotas

    constructor ()
      ensures quotas == map[]
    {
      quotas := map[];
    }

    /** Stamps a ceiling and keeps the live usage. */
    method Set(tenant: string, class_: ResourceClass, limit: U64)
      modifies this
      ensures quotas == Author(old(quotas), tenant, class_, limit)
      ensures Used(quotas, tenant, class_) == Used(old(quotas), tenant, class_)
    {
      var entry := if (tenant, class_) in quotas then quotas[(tenant, class_)] else UNLIMITED;
      quotas := quotas[(tenant, class_) := entry.(limit := limit)];
    }

    method Clear(tenant: string, class_: ResourceClass)
      modifies this
      ensures quotas == old(quotas) - {(tenant, class_)}
      ensures Used(quotas, tenant, class_) == 0
    {
      quotas := quotas - {(tenant, class_)};
    }

    method Lookup(tenant: string, class_: ResourceClass) returns (limit: Option<U64>)
      ensures limit.Some? <==> (tenant, class_) in quotas
      ensures limit.Some? ==> limit.value == Entry(quotas, (tenant, class_)).limit
    {
      limit := if (tenant, class_) in quotas then Some(quotas[(tenant, class_)].limit) else None;
    }

    /** Reserves, or denies and leaves every counter as it was. */
    method TryConsume(tenant: string, class_: ResourceClass, amount: U64) returns (ok: bool)
      modifies this
      ensures ok <==> Admits(old(quotas), tenant, class_, amount)
      ensures quotas == if ok then Consume(old(quotas), tenant, class_, amount) else old(quotas)
    {
      if tenant == "" {
        return true;
      }
      if (tenant, class_) !in quotas {
        quotas := quotas[(tenant, class_) := UNLIMITED];
      }
      var c := quotas[(tenant, class_)];
      if amount > SaturatingSub(c.limit, c.used) {
        return false;
      }
      quotas := quotas[(tenant, class_) := c.(used := SaturatingAdd(c.used, amount))];
      ok := true;
    }

    method ForceConsume(tenant: string, class_: ResourceClass, amount: U64)
      modifies this
      ensures quotas == Consume(old(quotas), tenant, class_, amount)
    {
      if tenant != "" {
        var c := if (tenant, class_) in quotas then quotas[(tenant, class_)] else UNLIMITED;
        quotas := quotas[(tenant, class_) := c.(used := SaturatingAdd(c.used, amount))];
      }
    }

    method Return(tenant: string, class_: ResourceClass, amount: U64)
      modifies this
      ensures quotas == Release(old(quotas), tenant, class_, amount)
    {
      if tenant != "" && (tenant, class_) in quotas {
        var c := quotas[(tenant, class_)];
        quotas := quotas[(tenant, class_) := c.(used := SaturatingSub(c.used, amount))];
      }
    }
  }
}
