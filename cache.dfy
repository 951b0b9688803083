/**
 * The in-memory order cache: a table from order UID to order, filled by
 * write-through, cache-fill on a miss, and a bulk restore from the store.
 * Go's `sync.Map` is modelled as a sequential map.
 */
module Cache {
  import opened Wrappers
  import opened Errors
  import opened Domain
  import opened OrderTable
  import opened Repository

  const RestoreFailed := "failed to restore cache"

  class OrderCache {
    /** The store `Restore` reads from. */
    const repo: Store
    var entries: map<string, Order>

    ghost predicate Valid()
      reads this
    {
      Keyed(entries)
    }

    /** `NewOrderCache`: an empty table over the given store. */
    constructor (repo: Store)
      ensures Valid() && this.repo == repo && entries == map[]
    {
      this.repo := repo;
      entries := map[];
    }

    /** `Set`: store under the order's own UID; every other key keeps its value. */
    method Set(order: Order)
      requires Valid()
      modifies this
      ensures Valid()
      ensures entries == old(entries)[order.orderUID := order]
    {
      entries := entries[order.orderUID := order];
    }

    /** `Get`: a hit returns the order stored under `id`, a miss returns `None`; nothing changes. */
    method Get(id: string) returns (r: Option<Order>)
      requires Valid()
      ensures r.Some? <==> id in entries
      ensures r.Some? ==> r.value == entries[id] && r.value.orderUID == id
    {
      if id in entries {
        return Some(entries[id]);
      }
      return None;
    }

    /** `Delete`: `id` misses afterwards; every other entry is unchanged. */
    method Delete(id: string)
      requires Valid()
      modifies this
      ensures Valid()
      ensures entries == old(entries) - {id}
    {
      entries := entries - {id};
    }

    /** `GetAll`: every stored order exactly once, in no specified order. */
    method GetAll() returns (r: seq<Order>)
      requires Valid()
      ensures Enumerates(r, entries)
    {
      r := Enumerate(entries);
    }

    /**
     * `Restore`: bulk-load every order the store lists. A failed fetch leaves
     * the table as it was; on success old entries stay and the store's
     * orders are added under their UIDs.
     */
    method Restore(fault: Option<Error>) returns (err: Option<Error>)
      requires Valid() && repo.Valid()
      modifies this
      ensures Valid()
      ensures fault.Some? ==> err == Some(Wrapped(RestoreFailed, fault.value)) && entries == old(entries)
      ensures fault.None? ==> err.None? && entries == old(entries) + repo.orders
    {
      var fetched := repo.GetAllOrders(fault);
      if fetched.Failure? {
        return Some(Wrapped(RestoreFailed, fetched.error));
      }
      var orders := fetched.value;
      var i := 0;
      while i < |orders|
        invariant 0 <= i <= |orders|
        invariant entries == StoreAll(old(entries), orders[..i])
      {
        assert orders[..i + 1][..i] == orders[..i];
        entries := entries[orders[i].orderUID := orders[i]];
        i := i + 1;
      }
      assert orders[..i] == orders;
      StoreAllKeyed(old(entries), orders);
      StoreAllEnumeration(old(entries), repo.orders, orders);
      return None;
    }
  }

  /** Storing the same order twice leaves the table a single store leaves. */
  method SetTwice(c: OrderCache, order: Order)
    requires c.Valid()
    modifies c
    ensures c.Valid()
    ensures c.entries == old(c.entries)[order.orderUID := order]
  {
    c.Set(order);
    c.Set(order);
  }
}
