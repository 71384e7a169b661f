/** The tenant a resource is minted for. */
module Tenancy {
  import opened Common

  /**
   `authorize_serving_tenant`: the process's own tenant unless it asks for another.
   `delegated` says that a `DelegateGrants` grant of the process admits the tenant.
   The empty name stands for the root.
   */
  function Principal(own: Option<string>, serving: Option<string>, delegated: bool): Option<string> {
    if serving.None? then Some(if own.Some? then own.value else "")
    else if own == serving || own.None? || delegated then serving
    else None
  }

  /**
   A process mints for its own tenant, and for another only if it asks for that
   one and is a root process or holds the delegation. It is refused exactly when
   a process of a tenant asks for another without delegation.
   */
  lemma PrincipalExactly(own: Option<string>, serving: Option<string>, delegated: bool)
    ensures Principal(own, serving, delegated).None? <==>
            own.Some? && serving.Some? && own.value != serving.value && !delegated
    ensures forall t | Principal(own, serving, delegated) == Some(t) ::
              || (serving == Some(t) && (own.None? || own == Some(t) || delegated))
              || (serving.None? && (own == Some(t) || (own.None? && t == "")))
    ensures own.Some? && (serving.None? || serving == own) ==> Principal(own, serving, delegated) == own
  {
  }
}
