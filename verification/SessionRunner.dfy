/** The parts of a session which deal with its tenant, as methods which change its fields. */
module SessionRunner {
  import opened AccessMode
  import opened Tenant

  class ClientSession {
    var ver: nat
    var tenantID: TenantId
    var tenantCode: string
    var terminating: bool
    /** How many messages the write loop has not taken yet. */
    var pending: nat
    const limit: nat
    ghost var queued: seq<TenantId>
    ghost var bound: nat

    ghost function View(): Session
      reads this
    {
      Session(ver, tenantID, tenantCode, terminating, queued, bound)
    }

    ghost predicate Valid()
      reads this
    {
      SessionOK(View()) && pending <= limit
    }

    constructor (limit: nat)
      ensures Valid() && View() == NewSession() && this.limit == limit
    {
      ver, tenantID, tenantCode, terminating, pending, this.limit := 0, NONE, "", false, 0, limit;
      queued, bound := [], 0;
    }

    /** Puts a message on the queue. Only a message of another tenant and a full queue are failures. */
    method QueueOut(tenant: TenantId) returns (ok: bool)
      requires Valid()
      modifies this`pending, this`queued
      ensures View() == Tenant.QueueOut(old(View()), tenant, old(pending) >= limit) && pending <= limit
      ensures ok == !(Rejects(old(View()), tenant) || (!terminating && old(pending) >= limit))
      ensures tenant in {NONE, tenantID} ==> Valid()
    {
      if tenant in {NONE, tenantID} {
        QueueOutKeeps(View(), tenant, pending >= limit);
      }
      if terminating {
        return true;
      }
      var stamped := tenant;
      if stamped == NONE {
        stamped := tenantID;
      } else if tenantID != NONE && stamped != tenantID {
        return false;
      }
      if pending >= limit {
        return false;
      }
      pending := pending + 1;
      queued := queued + [stamped];
      return true;
    }

    /** {hi}: the first one that is in order binds the version and the tenant, later ones do not. */
    method Hello(h: Tenant.Hello)
      requires Valid() && !terminating
      modifies this
      ensures Valid() && View() == Hi(old(View()), h, old(pending) >= limit)
      ensures old(tenantID) != NONE ==> tenantID == old(tenantID)
      ensures tenantID != old(tenantID) ==> Binds(old(View()), h) && tenantID == h.found.value.id
    {
      HiKeeps(View(), h, pending >= limit);
      if ver == 0 {
        if h.version.None? || h.version.value == 0 || h.version.value / 256 < MIN_SUPPORTED_VERSION / 256 {
          var _ := QueueOut(NONE);
          return;
        }
        if |h.code| == 0 || |h.code| > MAX_TENANT_CODE {
          var _ := QueueOut(NONE);
          return;
        }
        if h.found.None? || h.found.value.id == NONE || !h.found.value.active {
          var _ := QueueOut(NONE);
          return;
        }
        ver, tenantID, tenantCode := h.version.value, h.found.value.id, h.found.value.code;
        bound := |queued|;
      }
      var _ := QueueOut(NONE);
    }
  }
}
