/**
 * The durable store as the service and the cache see it: the three calls of
 * their `OrderRepository` interfaces over a table keyed by order UID. Whether
 * a call fails is decided by the environment and passed in as `fault`; a
 * failing call changes nothing. The PostgreSQL implementation of the same
 * calls is modelled on row sequences in module Postgres.
 */
module Repository {
  import opened Wrappers
  import opened Errors
  import opened Domain
  import opened OrderTable

  class Store {
    var orders: map<string, Order>

    ghost predicate Valid()
      reads this
    {
      Keyed(orders)
    }

    /** A store holding whatever was persisted before the process started. */
    constructor (persisted: map<string, Order>)
      requires Keyed(persisted)
      ensures Valid() && orders == persisted
    {
      orders := persisted;
    }

    /** `SaveOrder`: all-or-nothing; on success the order is stored under its UID. */
    method SaveOrder(order: Order, fault: Option<Error>) returns (err: Option<Error>)
      requires Valid()
      modifies this
      ensures Valid()
      ensures err == fault
      ensures orders == if fault.None? then old(orders)[order.orderUID := order] else old(orders)
    {
      err := fault;
      if fault.None? {
        orders := orders[order.orderUID := order];
      }
    }

    /** `GetOrderByID`: `(nil, nil)` is `Success(None)`, distinct from a failure. */
    method GetOrderByID(id: string, fault: Option<Error>) returns (r: Result<Option<Order>, Error>)
      requires Valid()
      ensures fault.Some? ==> r == Failure(fault.value)
      ensures fault.None? ==> r.Success?
      ensures r.Success? ==> (r.value.Some? <==> id in orders)
      ensures r.Success? && r.value.Some? ==> r.value.value == orders[id] && r.value.value.orderUID == id
    {
      if fault.Some? {
        return Failure(fault.value);
      }
      r := Success(if id in orders then Some(orders[id]) else None);
    }

    /** `GetAllOrders`: every stored order exactly once, or the failure. */
    method GetAllOrders(fault: Option<Error>) returns (r: Result<seq<Order>, Error>)
      requires Valid()
      ensures fault.Some? ==> r == Failure(fault.value)
      ensures fault.None? ==> r.Success? && Enumerates(r.value, orders)
    {
      if fault.Some? {
        return Failure(fault.value);
      }
      var all := Enumerate(orders);
      r := Success(all);
    }
  }
}
