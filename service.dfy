/**
 * The order service: validate -> save -> cache on the write path, cache-aside
 * on the read paths. Every call into the store takes the fault the store
 * would answer with; `validate` stands for `order.Validate()`.
 */
module Service {
  import opened Wrappers
  import opened Errors
  import opened Domain
  import opened OrderTable
  import opened Repository
  import opened Cache

  const InvalidOrderData := "invalid order data"
  const SaveFailed := "failed to save order"
  const GetFailed := "failed to get order"
  const GetAllFailed := "failed to get all orders"

  /** The error `CreateOrder` returns for a verdict of the validator and an answer of `SaveOrder`. */
  function CreateResult(verdict: Verdict, saveFault: Option<Error>): (err: Option<Error>)
    ensures verdict.Rejected? ==> err == Some(Wrapped(InvalidOrderData, ValidationErrors(verdict.violations)))
    ensures verdict.Accepted? ==> (err.None? <==> saveFault.None?)
    ensures verdict.Accepted? && saveFault.Some? ==> err == Some(Wrapped(SaveFailed, saveFault.value))
  {
    match verdict
    case Rejected(violations) => Some(Wrapped(InvalidOrderData, ValidationErrors(violations)))
    case Accepted => if saveFault.Some? then Some(Wrapped(SaveFailed, saveFault.value)) else None
  }

  /** A lookup in a table, as the read path reports it: `Some` for found, `None` for absent. */
  function Lookup(m: map<string, Order>, id: string): Option<Order>
  {
    if id in m then Some(m[id]) else None
  }

  /** An enumeration of a table the store covers lists only orders the store holds. */
  lemma EnumeratedFromStore(r: seq<Order>, c: map<string, Order>, s: map<string, Order>)
    requires Enumerates(r, c) && Coherent(c, s)
    ensures forall i :: 0 <= i < |r| ==> r[i].orderUID in s && s[r[i].orderUID] == r[i]
  {
  }

  /** `for _, order := range orders { s.cache.Set(order) }` */
  method SetEach(cache: OrderCache, orders: seq<Order>)
    requires cache.Valid()
    modifies cache
    ensures cache.Valid()
    ensures cache.entries == StoreAll(old(cache.entries), orders)
  {
    var i := 0;
    while i < |orders|
      invariant 0 <= i <= |orders|
      invariant cache.Valid()
      invariant cache.entries == StoreAll(old(cache.entries), orders[..i])
    {
      assert orders[..i + 1][..i] == orders[..i];
      cache.Set(orders[i]);
      i := i + 1;
    }
    assert orders[..i] == orders;
  }

  lemma EmptyUnion(s: map<string, Order>)
    ensures map[] + s == s
  {
  }

  class OrderService {
    const repo: Store
    const cache: OrderCache
    const validate: Order -> Verdict

    /** Both tables are keyed, the cache reads from this store, and the cache is never ahead of it. */
    ghost predicate Valid()
      reads this, repo, cache
    {
      && repo.Valid()
      && cache.Valid()
      && cache.repo == repo
      && Coherent(cache.entries, repo.orders)
    }

    /** `NewOrderService`, over a cache that holds nothing the store does not. */
    constructor (repo: Store, cache: OrderCache, validate: Order -> Verdict)
      requires repo.Valid() && cache.Valid() && cache.repo == repo
      requires Coherent(cache.entries, repo.orders)
      ensures Valid()
      ensures this.repo == repo && this.cache == cache && this.validate == validate
    {
      this.repo := repo;
      this.cache := cache;
      this.validate := validate;
    }

    /**
     * `GetAllOrders`: a non-empty cache answers alone, possibly staler than
     * the store; an empty cache is filled from the store's list.
     */
    method GetAllOrders(fault: Option<Error>) returns (r: Result<seq<Order>, Error>)
      requires Valid()
      modifies cache
      ensures Valid()
      ensures repo.orders == old(repo.orders)
      ensures old(cache.entries) != map[] ==>
        r.Success? && Enumerates(r.value, cache.entries) && cache.entries == old(cache.entries)
      ensures old(cache.entries) == map[] && fault.Some? ==>
        r == Failure(Wrapped(GetAllFailed, fault.value)) && cache.entries == map[]
      ensures old(cache.entries) == map[] && fault.None? ==>
        r.Success? && Enumerates(r.value, repo.orders) && cache.entries == repo.orders
      ensures r.Success? ==> forall i :: 0 <= i < |r.value| ==>
        r.value[i].orderUID in repo.orders && repo.orders[r.value[i].orderUID] == r.value[i]
    {
      var cached := cache.GetAll();
      if |cached| > 0 {
        EnumeratedFromStore(cached, cache.entries, repo.orders);
        return Success(cached);
      }
      assert cache.entries == map[] by {
        assert |cache.entries| == 0;
      }
      var fetched := repo.GetAllOrders(fault);
      if fetched.Failure? {
        return Failure(Wrapped(GetAllFailed, fetched.error));
      }
      var orders := fetched.value;
      SetEach(cache, orders);
      StoreAllEnumeration(map[], repo.orders, orders);
      EmptyUnion(repo.orders);
      assert cache.entries == repo.orders;
      EnumeratedFromStore(orders, repo.orders, repo.orders);
      return Success(orders);
    }

    /**
     * `GetOrder`: cache-aside read. A hit answers without the store; a miss
     * asks the store and fills the cache with what it finds.
     */
    method GetOrder(id: string, fault: Option<Error>) returns (r: Result<Option<Order>, Error>)
      requires Valid()
      modifies cache
      ensures Valid()
      ensures repo.orders == old(repo.orders)
      ensures id in old(cache.entries) ==>
        r == Success(Some(old(cache.entries)[id])) && cache.entries == old(cache.entries)
      ensures id !in old(cache.entries) && fault.Some? ==>
        r == Failure(Wrapped(GetFailed, fault.value)) && cache.entries == old(cache.entries)
      ensures id !in old(cache.entries) && fault.None? && id !in repo.orders ==>
        r == Success(None) && cache.entries == old(cache.entries)
      ensures id !in old(cache.entries) && fault.None? && id in repo.orders ==>
        r == Success(Some(repo.orders[id])) && cache.entries == old(cache.entries)[id := repo.orders[id]]
      // Cache transparency: whenever it answers, it answers what the store holds.
      ensures r.Success? ==> r.value == Lookup(repo.orders, id)
    {
      var hit := cache.Get(id);
      if hit.Some? {
        return Success(hit);
      }
      var found := repo.GetOrderByID(id, fault);
      if found.Failure? {
        return Failure(Wrapped(GetFailed, found.error));
      }
      if found.value.None? {
        return Success(None);
      }
      cache.Set(found.value.value);
      return Success(found.value);
    }

    /**
     * `CreateOrder`: validate, then save, then write through to the cache.
     * A rejected order touches neither table; a failed save leaves the cache alone.
     */
    method CreateOrder(order: Order, saveFault: Option<Error>) returns (err: Option<Error>)
      requires Valid()
      modifies repo, cache
      ensures Valid()
      ensures err == CreateResult(validate(order), saveFault)
      ensures err.None? ==>
        && repo.orders == old(repo.orders)[order.orderUID := order]
        && cache.entries == old(cache.entries)[order.orderUID := order]
      ensures err.Some? ==> repo.orders == old(repo.orders) && cache.entries == old(cache.entries)
    {
      var verdict := validate(order);
      if verdict.Rejected? {
        return Some(Wrapped(InvalidOrderData, ValidationErrors(verdict.violations)));
      }
      var saveErr := repo.SaveOrder(order, saveFault);
      if saveErr.Some? {
        return Some(Wrapped(SaveFailed, saveErr.value));
      }
      cache.Set(order);
      return None;
    }
  }

  /**
   * Application start-up: a fresh cache over the store is restored from
   * it before the service is built; a failed restore ends the process with
   * the wrapped error and no service. Once running, the cache mirrors the
   * store, so the service starts valid.
   */
  method Startup(repo: Store, validate: Order -> Verdict, restoreFault: Option<Error>)
    returns (svc: Option<OrderService>, err: Option<Error>)
    requires repo.Valid()
    ensures err.None? <==> restoreFault.None?
    ensures err.Some? ==> svc.None? && err == Some(Wrapped(RestoreFailed, restoreFault.value))
    ensures svc.Some? ==> err.None?
    ensures err.None? ==>
      && svc.Some? && svc.value.Valid()
      && svc.value.repo == repo && svc.value.validate == validate
      && svc.value.cache.entries == repo.orders
  {
    var cache := new OrderCache(repo);
    err := cache.Restore(restoreFault);
    if err.Some? {
      return None, err;
    }
    EmptyUnion(repo.orders);
    var service := new OrderService(repo, cache, validate);
    return Some(service), None;
  }
}
