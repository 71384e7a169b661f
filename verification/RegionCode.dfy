/**
 The region hostcalls as the runtime executes them: owner sets, tenant records
 and quota counters updated in place. Each method is one event of the model.
 */
module RegionCode {
  import opened Common
  import opened Quota
  import opened Regions

  datatype Error = PermissionDenied | MalformedPayload | QuotaExceeded | Kernel | Internal

  class RegionRuntime {
    const quota: QuotaTable
    var tenants: map<Pid, Option<string>>
    var lens: map<Rid, Len>
    var owners: map<Rid, set<Pid>>
    var records: map<(Pid, Rid), string>
    var queues: map<Qid, seq<Item>>
    ghost var past: Past

    ghost function View(): State
      reads this, quota
    {
      State(tenants, Books(lens, owners, records), quota.quotas, queues, past)
    }

    constructor ()
      ensures View() == START && fresh(quota)
    {
      quota := new QuotaTable();
      tenants, lens, owners, records, queues := map[], map[], map[], map[], map[];
      past := Past({}, map[], false);
    }

    /** `AllocRegion`. `outcome` is what the kernel and discovery do when asked. */
    method AllocRegion(p: Pid, serving: Option<string>, delegated: bool, pages: nat, outcome: Outcome)
      returns (result: Result<Rid, Error>)
      requires Enabled(View(), Alloc(p, serving, delegated, pages, outcome))
      modifies this, quota
      ensures View() == DoAlloc(old(View()), p, serving, delegated, pages, outcome)
      ensures result.Ok? ==> past.minted == old(past.minted) + {result.value}
      ensures result.Err? ==> past.minted == old(past.minted)
      ensures var own, size := old(tenants)[p], pages * PAGE;
              var principal := if serving.Some? then serving.value else if own.Some? then own.value else "";
              var counter := Entry(old(quota.quotas), (principal, SharedRegion));
              result == if serving.Some? && own.Some? && serving != own && !delegated then Err(PermissionDenied)
                        else if size >= TWO_32 then Err(MalformedPayload)
                        else if principal != "" && size > 0 && counter.used + size > counter.limit
                        then Err(QuotaExceeded)
                        else match outcome
                             case KernelFails => Err(Kernel)
                             case PublishFails(_) => Err(Internal)
                             case Succeeds(id) => Ok(id)
    {
      var own := tenants[p];
      var principal: string;
      match serving {
        case None => principal := if own.Some? then own.value else "";
        case Some(requested) =>
          if !(own == Some(requested) || own.None? || delegated) {
            return Err(PermissionDenied);
          }
          principal := requested;
      }
      var size := pages * PAGE;
      if size >= TWO_32 {
        return Err(MalformedPayload);
      }
      var reserved := quota.TryConsume(principal, SharedRegion, size);
      if !reserved {
        return Err(QuotaExceeded);
      }
      if outcome.KernelFails? {
        past := Leak(past, principal, size);
        return Err(Kernel);
      }
      result := MintRegion(p, outcome.id, principal, size, outcome.Succeeds?);
    }

    /** Claims, publishes and records a region that the kernel has allocated. */
    method MintRegion(p: Pid, id: Rid, principal: string, size: Len, published: bool)
      returns (result: Result<Rid, Error>)
      modifies this
      ensures tenants == old(tenants) && queues == old(queues)
      ensures Books(lens, owners, records) == Mint(old(View()).books, p, id, size, principal, published)
      ensures result == if published then Ok(id) else Err(Internal)
      ensures past == if published then old(past).(minted := old(past.minted) + {id})
                      else Leak(old(past), principal, size)
    {
      lens := lens[id := size];
      owners := owners[id := {p}];
      if !published {
        past := Leak(past, principal, size);
        return Err(Internal);
      }
      records := records[(p, id) := principal];
      past := past.(minted := past.minted + {id});
      result := Ok(id);
    }

    /** `FreeRegion`. */
    method FreeRegion(p: Pid, r: Rid) returns (result: Result<(), Error>)
      modifies this, quota
      ensures View() == DoFree(old(View()), p, r)
      ensures result.Ok? <==> Owns(old(View()).books, p, r) && r in old(lens)
      ensures result.Err? ==> View() == old(View())
      ensures result.Ok? ==> lens == old(lens) - {r} && records == old(records) - {(p, r)}
      ensures r !in old(owners) || p !in old(owners)[r] ==> result == Err(PermissionDenied)
    {
      if r !in owners || p !in owners[r] {
        return Err(PermissionDenied);
      }
      if r !in lens {
        return Err(Kernel);
      }
      var len := lens[r];
      var serving := if (p, r) in records then Some(records[(p, r)]) else None;
      lens := lens - {r};
      var remaining := owners[r] - {p};
      owners := if remaining == {} then owners - {r} else owners[r := remaining];
      if serving.Some? {
        quota.Return(serving.value, SharedRegion, len);
      }
      records := records - {(p, r)};
      result := Ok(());
    }

    /** `transfer_region_ownership_on_recv`. */
    method TransferOnRecv(to: Pid, sender: Pid, r: Rid)
      modifies this, quota
      ensures View() == DoTransfer(old(View()), to, sender, r)
      ensures tenants == old(tenants) && lens == old(lens) && queues == old(queues)
      ensures owners == if r in old(owners) && sender in old(owners)[r]
                        then old(owners)[r := old(owners)[r] - {sender} + {to}] else old(owners)
    {
      if r !in owners || sender !in owners[r] {
        return;
      }
      if (sender, r) in records {
        var from := records[(sender, r)];
        var dest := if to in tenants && tenants[to].Some? then tenants[to].value else "";
        if from != dest && r in lens {
          quota.Return(from, SharedRegion, lens[r]);
          quota.ForceConsume(dest, SharedRegion, lens[r]);
        }
        records := (records - {(sender, r)})[(to, r) := dest];
      }
      owners := owners[r := owners[r] - {sender} + {to}];
    }

    /** The delivery half of a receive: the item leaves the queue, then its region moves. */
    method Recv(p: Pid, q: Qid) returns (item: Option<Item>)
      requires Enabled(View(), Event.Recv(p, q))
      modifies this, quota
      ensures View() == Apply(old(View()), Event.Recv(p, q))
      ensures item == if old(queues)[q] == [] then None else Some(old(queues)[q][0])
    {
      if queues[q] == [] {
        return None;
      }
      item := Some(queues[q][0]);
      queues := queues[q := queues[q][1..]];
      TransferOnRecv(p, item.value.sender, item.value.value);
    }
  }
}
