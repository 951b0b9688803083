/**
 * The logic inside the PostgreSQL repository, with the SQL abstracted away:
 * each query is a sequence of rows or a failure, each statement of a
 * transaction succeeds or fails as the environment says.
 *
 *  - SaveOrder runs its statements in a fixed order inside one transaction
 *    and commits only if all of them succeed (the deferred rollback discards
 *    the rest);
 *  - GetOrderByID maps "no rows" to "not found", distinct from an error;
 *  - GetAllOrders groups item rows by order UID and attaches them to the orders.
 */
module Postgres {
  import opened Wrappers
  import opened Errors
  import opened Domain

  // ---------------------------------------------------------------------
  // SaveOrder
  // ---------------------------------------------------------------------

  /** The steps of SaveOrder's transaction; `InsertItem(i)` inserts `order.items[i]`. */
  datatype Step = Begin | InsertOrder | InsertDelivery | InsertPayment | InsertItem(index: int) | Commit

  /** A row one INSERT of SaveOrder writes. `OrderInfo` stands for the header columns of `order`. */
  datatype Insert =
    | OrderInfo(order: Order)
    | DeliveryInfo(orderUID: string, delivery: Delivery)
    | PaymentInfo(orderUID: string, payment: Payment)
    | ItemInfo(orderUID: string, item: Item)

  /** The error context SaveOrder gives the failure of each step. */
  function Context(step: Step): string
  {
    match step
    case Begin => "failed to begin transaction"
    case InsertOrder => "failed to insert order info"
    case InsertDelivery => "failed to insert delivery info"
    case InsertPayment => "failed to insert payment info"
    case InsertItem(_) => "failed to insert item"
    case Commit => "failed to commit transaction"
  }

  /** The steps of SaveOrder, in the order they run: one item insert per item, in slice order. */
  function Plan(order: Order): (plan: seq<Step>)
    ensures |plan| == |order.items| + 5
    ensures plan[0] == Begin && plan[1] == InsertOrder && plan[2] == InsertDelivery && plan[3] == InsertPayment
    ensures forall i :: 0 <= i < |order.items| ==> plan[4 + i] == InsertItem(i)
    ensures plan[|plan| - 1] == Commit
  {
    [Begin, InsertOrder, InsertDelivery, InsertPayment] + seq(|order.items|, i => InsertItem(i)) + [Commit]
  }

  /** The rows a committed SaveOrder adds: order, delivery, payment, then each item in slice order. */
  function Inserts(order: Order): (rows: seq<Insert>)
    ensures |rows| == |order.items| + 3
    ensures rows[0] == OrderInfo(order)
    ensures rows[1] == DeliveryInfo(order.orderUID, order.delivery)
    ensures rows[2] == PaymentInfo(order.orderUID, order.payment)
    ensures forall i :: 0 <= i < |order.items| ==> rows[3 + i] == ItemInfo(order.orderUID, order.items[i])
  {
    [OrderInfo(order), DeliveryInfo(order.orderUID, order.delivery), PaymentInfo(order.orderUID, order.payment)]
    + seq(|order.items|, i requires 0 <= i < |order.items| => ItemInfo(order.orderUID, order.items[i]))
  }

  /** The index of the first step of `plan` that fails, or `|plan|` when none does. */
  function FirstFault(plan: seq<Step>, faults: map<Step, Error>): (n: nat)
    ensures n <= |plan|
    ensures forall i :: 0 <= i < n ==> plan[i] !in faults
    ensures n < |plan| ==> plan[n] in faults
  {
    if plan == [] then 0
    else if plan[0] in faults then 0
    else 1 + FirstFault(plan[1..], faults)
  }

  /** No step of `plan` fails. */
  predicate RunsClean(plan: seq<Step>, faults: map<Step, Error>)
  {
    forall s :: s in plan ==> s !in faults
  }

  /**
   * The plan stopped at its first failing step: the steps up to and
   * including that one ran, and the error is that step's error wrapped in
   * the step's context.
   */
  predicate AbortedAt(plan: seq<Step>, faults: map<Step, Error>, trace: seq<Step>, err: Option<Error>)
  {
    var n := FirstFault(plan, faults);
    && n < |plan|
    && trace == plan[..n + 1]
    && err == Some(Wrapped(Context(plan[n]), faults[plan[n]]))
  }

  /** A plan whose first failing step is `k` does not run clean, and aborts there. */
  lemma FirstFaultAt(plan: seq<Step>, faults: map<Step, Error>, k: int)
    requires 0 <= k < |plan| && plan[k] in faults
    requires forall j :: 0 <= j < k ==> plan[j] !in faults
    ensures FirstFault(plan, faults) == k
    ensures !RunsClean(plan, faults)
    ensures AbortedAt(plan, faults, plan[..k + 1], Some(Wrapped(Context(plan[k]), faults[plan[k]])))
  {
  }

  /** A plan none of whose steps fails runs clean. */
  lemma NoFaultAt(plan: seq<Step>, faults: map<Step, Error>)
    requires forall j :: 0 <= j < |plan| ==> plan[j] !in faults
    ensures RunsClean(plan, faults)
  {
  }

  /** A prefix of `s` followed by the next element is the next prefix. */
  lemma PrefixGrows<T>(s: seq<T>, k: int)
    requires 0 <= k < |s|
    ensures s[..k] + [s[k]] == s[..k + 1]
  {
  }

  /**
   * The state of SaveOrder's item loop before item `i`: the trace is the
   * plan so far, none of it failed, and the rows of the order, delivery,
   * payment and first `i` items are pending.
   */
  ghost predicate ItemsRunning(order: Order, faults: map<Step, Error>, i: int, trace: seq<Step>, pending: seq<Insert>)
  {
    && 0 <= i <= |order.items|
    && trace == Plan(order)[..4 + i]
    && (forall j :: 0 <= j < 4 + i ==> Plan(order)[j] !in faults)
    && pending == Inserts(order)[..3 + i]
  }

  /** One turn of the item loop: item `i` either aborts the plan or keeps the loop running. */
  lemma ItemStep(order: Order, faults: map<Step, Error>, i: int, trace: seq<Step>, pending: seq<Insert>)
    requires ItemsRunning(order, faults, i, trace, pending) && i < |order.items|
    ensures InsertItem(i) in faults ==>
      && !RunsClean(Plan(order), faults)
      && AbortedAt(Plan(order), faults, trace + [InsertItem(i)], Some(Wrapped(Context(InsertItem(i)), faults[InsertItem(i)])))
    ensures InsertItem(i) !in faults ==>
      ItemsRunning(order, faults, i + 1, trace + [InsertItem(i)], pending + [ItemInfo(order.orderUID, order.items[i])])
  {
    PrefixGrows(Plan(order), 4 + i);
    PrefixGrows(Inserts(order), 3 + i);
    if InsertItem(i) in faults {
      FirstFaultAt(Plan(order), faults, 4 + i);
    }
  }

  /** After the last item only the commit is left, and every row is pending. */
  lemma ItemsDone(order: Order, faults: map<Step, Error>, trace: seq<Step>, pending: seq<Insert>)
    requires ItemsRunning(order, faults, |order.items|, trace, pending)
    ensures trace == Plan(order)[..|Plan(order)| - 1]
    ensures pending == Inserts(order)
    ensures forall j :: 0 <= j < |Plan(order)| - 1 ==> Plan(order)[j] !in faults
  {
    assert Inserts(order)[..3 + |order.items|] == Inserts(order);
  }

  /**
   * The item loop of SaveOrder, inside the open transaction after the
   * payment row: one insert per item in slice order, stopping at the first
   * that fails. Either every item went in and only the commit is left, or
   * the plan aborted at a failing item.
   */
  method InsertItems(order: Order, faults: map<Step, Error>, trace0: seq<Step>, pending0: seq<Insert>)
    returns (trace: seq<Step>, pending: seq<Insert>, err: Option<Error>)
    requires ItemsRunning(order, faults, 0, trace0, pending0)
    ensures err.None? ==>
      && trace == Plan(order)[..|Plan(order)| - 1]
      && pending == Inserts(order)
      && forall j :: 0 <= j < |Plan(order)| - 1 ==> Plan(order)[j] !in faults
    ensures err.Some? ==> !RunsClean(Plan(order), faults) && AbortedAt(Plan(order), faults, trace, err)
  {
    trace, pending := trace0, pending0;
    var i := 0;
    while i < |order.items|
      invariant ItemsRunning(order, faults, i, trace, pending)
    {
      ItemStep(order, faults, i, trace, pending);
      trace := trace + [InsertItem(i)];
      if InsertItem(i) in faults {
        return trace, pending, Some(Wrapped(Context(InsertItem(i)), faults[InsertItem(i)]));
      }
      pending := pending + [ItemInfo(order.orderUID, order.items[i])];
      i := i + 1;
    }
    ItemsDone(order, faults, trace, pending);
    return trace, pending, None;
  }

  /**
   * SaveOrder against a database whose committed rows are `db`, where the
   * step `s` fails with `faults[s]` when `s in faults`. It runs the plan up
   * to and including the first failing step; it commits every row, in plan
   * order, exactly when no step fails, and otherwise commits nothing.
   */
  method SaveOrder(db: seq<Insert>, order: Order, faults: map<Step, Error>)
    returns (db': seq<Insert>, err: Option<Error>, trace: seq<Step>)
    ensures err.None? <==> RunsClean(Plan(order), faults)
    ensures err.None? ==> trace == Plan(order) && db' == db + Inserts(order)
    ensures err.Some? ==> db' == db && AbortedAt(Plan(order), faults, trace, err)
  {
    ghost var plan, rows := Plan(order), Inserts(order);

    trace := [Begin];
    assert trace == plan[..1];
    if Begin in faults {
      FirstFaultAt(plan, faults, 0);
      return db, Some(Wrapped(Context(Begin), faults[Begin])), trace;
    }
    // The open transaction; the deferred rollback drops it on every early return.
    var pending: seq<Insert> := [];
    assert pending == rows[..0];

    PrefixGrows(plan, 1);
    trace := trace + [InsertOrder];
    if InsertOrder in faults {
      FirstFaultAt(plan, faults, 1);
      return db, Some(Wrapped(Context(InsertOrder), faults[InsertOrder])), trace;
    }
    PrefixGrows(rows, 0);
    pending := pending + [OrderInfo(order)];

    PrefixGrows(plan, 2);
    trace := trace + [InsertDelivery];
    if InsertDelivery in faults {
      FirstFaultAt(plan, faults, 2);
      return db, Some(Wrapped(Context(InsertDelivery), faults[InsertDelivery])), trace;
    }
    PrefixGrows(rows, 1);
    pending := pending + [DeliveryInfo(order.orderUID, order.delivery)];

    PrefixGrows(plan, 3);
    trace := trace + [InsertPayment];
    if InsertPayment in faults {
      FirstFaultAt(plan, faults, 3);
      return db, Some(Wrapped(Context(InsertPayment), faults[InsertPayment])), trace;
    }
    PrefixGrows(rows, 2);
    pending := pending + [PaymentInfo(order.orderUID, order.payment)];

    var failed;
    trace, pending, failed := InsertItems(order, faults, trace, pending);
    if failed.Some? {
      return db, failed, trace;
    }

    trace := trace + [Commit];
    PrefixGrows(plan, |plan| - 1);
    assert trace == plan;
    if Commit in faults {
      FirstFaultAt(plan, faults, |plan| - 1);
      return db, Some(Wrapped(Context(Commit), faults[Commit])), trace;
    }
    NoFaultAt(plan, faults);
    assert pending == rows;
    db', err := db + pending, None;
  }

  // ---------------------------------------------------------------------
  // Row sequences
  // ---------------------------------------------------------------------

  /** One row as `rows.Scan` reads it: the value, or the scan error. */
  datatype Scan<T> = Scanned(value: T) | ScanFailed(error: Error)

  /**
   * The answer to a query: the query fails, or it yields rows one by one
   * until the cursor ends, after which `rows.Err()` is `cursorError`
   * (an error that cut the result short, or none).
   */
  datatype Query<T> = QueryFailed(error: Error) | Rows(rows: seq<Scan<T>>, cursorError: Option<Error>)

  /** A row of the items query: the item and the UID of the order it belongs to. */
  datatype ItemRow = ItemRow(orderUID: string, item: Item)

  predicate AllScanned<T>(rows: seq<Scan<T>>)
  {
    forall i :: 0 <= i < |rows| ==> rows[i].Scanned?
  }

  /** A query that succeeds in full: no query, scan or cursor error. */
  predicate Clean<T>(q: Query<T>)
  {
    q.Rows? && AllScanned(q.rows) && q.cursorError.None?
  }

  function Values<T>(rows: seq<Scan<T>>): (vs: seq<T>)
    requires AllScanned(rows)
    ensures |vs| == |rows| && forall i :: 0 <= i < |rows| ==> vs[i] == rows[i].value
  {
    seq(|rows|, i requires 0 <= i < |rows| => rows[i].value)
  }

  /** A non-empty row sequence scans cleanly when its first row and the rest do, and its values follow. */
  lemma ScanCons<T>(rows: seq<Scan<T>>)
    requires rows != []
    ensures AllScanned(rows) <==> rows[0].Scanned? && AllScanned(rows[1..])
    ensures AllScanned(rows) ==> Values(rows) == [rows[0].value] + Values(rows[1..])
  {
    if AllScanned(rows) {
      assert Values(rows) == [rows[0].value] + Values(rows[1..]);
    }
  }

  /** Scanning rows front to back: the first scan error, or every value in row order. */
  function ScanAll<T>(rows: seq<Scan<T>>): (r: Result<seq<T>, Error>)
    ensures r.Success? <==> AllScanned(rows)
    ensures r.Success? ==> r.value == Values(rows)
  {
    if rows == [] then Success([])
    else
      ScanCons(rows);
      match rows[0]
      case ScanFailed(e) => Failure(e)
      case Scanned(v) =>
        match ScanAll(rows[1..])
        case Failure(e) => Failure(e)
        case Success(vs) => Success([v] + vs)
  }

  /** The error ScanAll reports is that of the first row that fails to scan. */
  lemma {:induction false} ScanAllFirstFailure<T>(rows: seq<Scan<T>>, i: int)
    requires 0 <= i < |rows| && AllScanned(rows[..i]) && rows[i].ScanFailed?
    ensures ScanAll(rows) == Failure(rows[i].error)
  {
    if i > 0 {
      assert rows[0] == rows[..i][0];
      assert rows[1..][..i - 1] == rows[..i][1..];
      ScanAllFirstFailure(rows[1..], i - 1);
    }
  }

  /** A query as the code reads it: the query error, else the scan loop; `rows.Err()` is never consulted. */
  function FetchAsWritten<T>(q: Query<T>, queryContext: string, scanContext: string): (r: Result<seq<T>, Error>)
    ensures q.QueryFailed? ==> r == Failure(Wrapped(queryContext, q.error))
    ensures q.Rows? ==> (r.Success? <==> AllScanned(q.rows))
    ensures q.Rows? && !AllScanned(q.rows) ==> r == Failure(Wrapped(scanContext, ScanAll(q.rows).error))
    ensures r.Success? ==> r.value == Values(q.rows)
  {
    match q
    case QueryFailed(e) => Failure(Wrapped(queryContext, e))
    case Rows(rows, _) =>
      match ScanAll(rows)
      case Failure(e) => Failure(Wrapped(scanContext, e))
      case Success(vs) => Success(vs)
  }

  /** The same read with `rows.Err()` checked after the loop: it succeeds only on a clean query. */
  function Fetch<T>(q: Query<T>, queryContext: string, scanContext: string, cursorContext: string): (r: Result<seq<T>, Error>)
    ensures r.Success? <==> Clean(q)
    ensures r.Success? ==> r.value == Values(q.rows)
  {
    var read := FetchAsWritten(q, queryContext, scanContext);
    if read.Success? && q.cursorError.Some? then Failure(Wrapped(cursorContext, q.cursorError.value))
    else read
  }

  const GetOrderFailed := "failed to get order"
  const QueryItemsFailed := "failed to query items"
  const ScanItemFailed := "failed to scan item"
  const ReadItemsFailed := "failed to read items"
  const QueryAllOrdersFailed := "failed to query all orders"
  const ScanOrderFailed := "failed to scan order"
  const ReadOrdersFailed := "failed to read orders"

  // ---------------------------------------------------------------------
  // GetOrderByID
  // ---------------------------------------------------------------------

  /**
   * GetOrderByID as the code reads it. `header` is what `QueryRow(...).Scan`
   * gave (the order, delivery and payment columns, or an error);
   * `itemQuery` is the items query for that UID.
   */
  function OrderByIDAsWritten(header: Result<Order, Error>, itemQuery: Query<Item>): (r: Result<Option<Order>, Error>)
    ensures header == Failure(NoRows) ==> r == Success(None)
    ensures header.Failure? && header.error != NoRows ==> r == Failure(Wrapped(GetOrderFailed, header.error))
    ensures header.Success? ==> (r.Success? <==> itemQuery.Rows? && AllScanned(itemQuery.rows))
    ensures header.Success? && r.Success? ==> r.value == Some(header.value.(items := Values(itemQuery.rows)))
  {
    match header
    case Failure(e) => if e == NoRows then Success(None) else Failure(Wrapped(GetOrderFailed, e))
    case Success(o) =>
      match FetchAsWritten(itemQuery, QueryItemsFailed, ScanItemFailed)
      case Failure(e) => Failure(e)
      case Success(items) => Success(Some(o.(items := items)))
  }

  /** GetOrderByID with the cursor error checked: "no rows" is not-found, every other failure an error, never a partial order. */
  function OrderByID(header: Result<Order, Error>, itemQuery: Query<Item>): (r: Result<Option<Order>, Error>)
    ensures header == Failure(NoRows) ==> r == Success(None)
    ensures header.Failure? && header.error != NoRows ==> r == Failure(Wrapped(GetOrderFailed, header.error))
    ensures header.Success? ==> (r.Success? <==> Clean(itemQuery))
    ensures header.Success? && r.Success? ==> r.value == Some(header.value.(items := Values(itemQuery.rows)))
  {
    match header
    case Failure(e) => if e == NoRows then Success(None) else Failure(Wrapped(GetOrderFailed, e))
    case Success(o) =>
      match Fetch(itemQuery, QueryItemsFailed, ScanItemFailed, ReadItemsFailed)
      case Failure(e) => Failure(e)
      case Success(items) => Success(Some(o.(items := items)))
  }

  method GetOrderByID(header: Result<Order, Error>, itemQuery: Query<Item>) returns (r: Result<Option<Order>, Error>)
    ensures r == OrderByID(header, itemQuery)
  {
    if header.Failure? {
      if header.error == NoRows {
        return Success(None);
      }
      return Failure(Wrapped(GetOrderFailed, header.error));
    }
    if itemQuery.QueryFailed? {
      return Failure(Wrapped(QueryItemsFailed, itemQuery.error));
    }
    var rows := itemQuery.rows;
    var order := header.value.(items := []);
    var i := 0;
    while i < |rows|
      invariant 0 <= i <= |rows|
      invariant AllScanned(rows[..i])
      invariant order == header.value.(items := Values(rows[..i]))
    {
      if rows[i].ScanFailed? {
        ScanAllFirstFailure(rows, i);
        return Failure(Wrapped(ScanItemFailed, rows[i].error));
      }
      assert Values(rows[..i + 1]) == Values(rows[..i]) + [rows[i].value];
      order := order.(items := order.items + [rows[i].value]);
      i := i + 1;
    }
    assert rows[..i] == rows;
    if itemQuery.cursorError.Some? {
      return Failure(Wrapped(ReadItemsFailed, itemQuery.cursorError.value));
    }
    return Success(Some(order));
  }

  /**
   * The cursor error GetOrderByID never reads: the connection drops before
   * the order's one item row arrives. As written the order comes back,
   * without its item, as a success; with `rows.Err()` checked it is an error.
   */
  lemma OrderByIDAsWrittenTruncates(header: Order)
    ensures var q := Rows([], Some(Plain("connection reset")));
      && OrderByIDAsWritten(Success(header), q) == Success(Some(header.(items := [])))
      && OrderByID(Success(header), q) == Failure(Wrapped(ReadItemsFailed, Plain("connection reset")))
  {
  }

  /** Where the cursor ends cleanly the two readings of GetOrderByID agree. */
  lemma OrderByIDAgreesWithoutCursorError(header: Result<Order, Error>, itemQuery: Query<Item>)
    requires itemQuery.Rows? ==> itemQuery.cursorError.None?
    ensures OrderByIDAsWritten(header, itemQuery) == OrderByID(header, itemQuery)
  {
  }

  // ---------------------------------------------------------------------
  // GetAllOrders
  // ---------------------------------------------------------------------

  /**
   * The items that `itemMap[uid]` holds once the item rows `rows` have been
   * appended one by one: those of `uid`, in row order.
   */
  function Grouped(rows: seq<ItemRow>, uid: string): seq<Item>
  {
    if rows == [] then []
    else
      var last := rows[|rows| - 1];
      Grouped(rows[..|rows| - 1], uid) + (if last.orderUID == uid then [last.item] else [])
  }

  /** The same selection read front to back, as a filter over the rows. */
  function Matching(rows: seq<ItemRow>, uid: string): seq<Item>
  {
    if rows == [] then []
    else (if rows[0].orderUID == uid then [rows[0].item] else []) + Matching(rows[1..], uid)
  }

  /** Filtering distributes over concatenation. */
  lemma {:induction false} MatchingAppend(a: seq<ItemRow>, b: seq<ItemRow>, uid: string)
    ensures Matching(a + b, uid) == Matching(a, uid) + Matching(b, uid)
  {
    if a == [] {
      assert a + b == b;
    } else {
      var head := if a[0].orderUID == uid then [a[0].item] else [];
      assert (a + b)[0] == a[0];
      assert (a + b)[1..] == a[1..] + b;
      assert Matching(a + b, uid) == head + Matching(a[1..] + b, uid);
      MatchingAppend(a[1..], b, uid);
      assert Matching(a, uid) == head + Matching(a[1..], uid);
    }
  }

  /** Appending row by row into the map groups exactly what the filter selects. */
  lemma {:induction false} GroupedIsMatching(rows: seq<ItemRow>, uid: string)
    ensures Grouped(rows, uid) == Matching(rows, uid)
  {
    if rows != [] {
      var init, last := rows[..|rows| - 1], rows[|rows| - 1];
      assert rows == init + [last];
      GroupedIsMatching(init, uid);
      MatchingAppend(init, [last], uid);
    }
  }

  /** An item is grouped under `uid` exactly when a row pairs it with `uid`. */
  lemma {:induction false} MatchingMembers(rows: seq<ItemRow>, uid: string, x: Item)
    ensures x in Matching(rows, uid) <==> ItemRow(uid, x) in rows
  {
    if rows != [] {
      MatchingMembers(rows[1..], uid, x);
      assert rows == [rows[0]] + rows[1..];
    }
  }

  /** Grouping one more row. */
  lemma GroupedSnoc(rows: seq<ItemRow>, row: ItemRow, uid: string)
    ensures Grouped(rows + [row], uid) == Grouped(rows, uid) + (if row.orderUID == uid then [row.item] else [])
  {
    assert (rows + [row])[..|rows|] == rows;
  }

  /** Go's read of a missing map key: the empty (nil) slice. */
  function ItemsOf(itemMap: map<string, seq<Item>>, uid: string): seq<Item>
  {
    if uid in itemMap then itemMap[uid] else []
  }

  /** Each order, in query order, with the items grouped under its UID. */
  function Attach(orders: seq<Order>, rows: seq<ItemRow>): (r: seq<Order>)
    ensures |r| == |orders|
  {
    seq(|orders|, i requires 0 <= i < |orders| => orders[i].(items := Grouped(rows, orders[i].orderUID)))
  }

  /**
   * What the attach step promises: the orders keep their order and their
   * own columns, and each one's items are, in row order, exactly the item
   * rows that carry its UID.
   */
  lemma AttachGroupsItems(orders: seq<Order>, rows: seq<ItemRow>, i: int, x: Item)
    requires 0 <= i < |orders|
    ensures Attach(orders, rows)[i].(items := orders[i].items) == orders[i]
    ensures Attach(orders, rows)[i].items == Matching(rows, orders[i].orderUID)
    ensures x in Attach(orders, rows)[i].items <==> ItemRow(orders[i].orderUID, x) in rows
  {
    GroupedIsMatching(rows, orders[i].orderUID);
    MatchingMembers(rows, orders[i].orderUID, x);
  }

  /** GetAllOrders as the code reads it: neither cursor's `rows.Err()` is consulted. */
  function AllOrdersAsWritten(orderQuery: Query<Order>, itemQuery: Query<ItemRow>): (r: Result<seq<Order>, Error>)
    ensures r.Success? <==>
      orderQuery.Rows? && AllScanned(orderQuery.rows) && itemQuery.Rows? && AllScanned(itemQuery.rows)
    ensures r.Success? ==> r.value == Attach(Values(orderQuery.rows), Values(itemQuery.rows))
    ensures orderQuery.QueryFailed? ==> r == Failure(Wrapped(QueryAllOrdersFailed, orderQuery.error))
    ensures orderQuery.Rows? && AllScanned(orderQuery.rows) && itemQuery.QueryFailed? ==>
      r == Failure(Wrapped(QueryItemsFailed, itemQuery.error))
  {
    match FetchAsWritten(orderQuery, QueryAllOrdersFailed, ScanOrderFailed)
    case Failure(e) => Failure(e)
    case Success(orders) =>
      match FetchAsWritten(itemQuery, QueryItemsFailed, ScanItemFailed)
      case Failure(e) => Failure(e)
      case Success(rows) => Success(Attach(orders, rows))
  }

  /**
   * GetAllOrders with each cursor checked after its loop: it succeeds
   * exactly when both queries are clean, and then returns every order row
   * with its items; the orders query's failures come first.
   */
  function AllOrders(orderQuery: Query<Order>, itemQuery: Query<ItemRow>): (r: Result<seq<Order>, Error>)
    ensures r.Success? <==> Clean(orderQuery) && Clean(itemQuery)
    ensures r.Success? ==> r.value == Attach(Values(orderQuery.rows), Values(itemQuery.rows))
    ensures orderQuery.QueryFailed? ==> r == Failure(Wrapped(QueryAllOrdersFailed, orderQuery.error))
    ensures Clean(orderQuery) && itemQuery.QueryFailed? ==> r == Failure(Wrapped(QueryItemsFailed, itemQuery.error))
  {
    match Fetch(orderQuery, QueryAllOrdersFailed, ScanOrderFailed, ReadOrdersFailed)
    case Failure(e) => Failure(e)
    case Success(orders) =>
      match Fetch(itemQuery, QueryItemsFailed, ScanItemFailed, ReadItemsFailed)
      case Failure(e) => Failure(e)
      case Success(rows) => Success(Attach(orders, rows))
  }

  /** Scanning rows into `itemMap`: after a prefix, each key holds its group and every other UID has none. */
  ghost predicate GroupedInto(itemMap: map<string, seq<Item>>, rows: seq<ItemRow>)
  {
    forall uid :: ItemsOf(itemMap, uid) == Grouped(rows, uid)
  }

  method GetAllOrders(orderQuery: Query<Order>, itemQuery: Query<ItemRow>) returns (r: Result<seq<Order>, Error>)
    ensures r == AllOrders(orderQuery, itemQuery)
  {
    if orderQuery.QueryFailed? {
      return Failure(Wrapped(QueryAllOrdersFailed, orderQuery.error));
    }
    var orderRows := orderQuery.rows;
    var orders: seq<Order> := [];
    var i := 0;
    while i < |orderRows|
      invariant 0 <= i <= |orderRows|
      invariant AllScanned(orderRows[..i]) && orders == Values(orderRows[..i])
    {
      if orderRows[i].ScanFailed? {
        ScanAllFirstFailure(orderRows, i);
        return Failure(Wrapped(ScanOrderFailed, orderRows[i].error));
      }
      assert Values(orderRows[..i + 1]) == Values(orderRows[..i]) + [orderRows[i].value];
      orders := orders + [orderRows[i].value];
      i := i + 1;
    }
    assert orderRows[..i] == orderRows;
    if orderQuery.cursorError.Some? {
      return Failure(Wrapped(ReadOrdersFailed, orderQuery.cursorError.value));
    }

    if itemQuery.QueryFailed? {
      return Failure(Wrapped(QueryItemsFailed, itemQuery.error));
    }
    var itemMap, failed := GroupItems(itemQuery.rows);
    if failed.Some? {
      return Failure(Wrapped(ScanItemFailed, failed.value));
    }
    if itemQuery.cursorError.Some? {
      return Failure(Wrapped(ReadItemsFailed, itemQuery.cursorError.value));
    }
    orders := AttachItems(orders, itemMap, Values(itemQuery.rows));
    return Success(orders);
  }

  /**
   * The item loop of GetAllOrders: each scanned row's item is appended to
   * `itemMap[orderUID]`, stopping at the first row that fails to scan.
   */
  method GroupItems(itemRows: seq<Scan<ItemRow>>) returns (itemMap: map<string, seq<Item>>, err: Option<Error>)
    ensures err.None? <==> AllScanned(itemRows)
    ensures err.None? ==> GroupedInto(itemMap, Values(itemRows))
    ensures err.Some? ==> ScanAll(itemRows) == Failure(err.value)
  {
    itemMap := map[];
    var i := 0;
    while i < |itemRows|
      invariant 0 <= i <= |itemRows|
      invariant AllScanned(itemRows[..i]) && GroupedInto(itemMap, Values(itemRows[..i]))
    {
      if itemRows[i].ScanFailed? {
        ScanAllFirstFailure(itemRows, i);
        return itemMap, Some(itemRows[i].error);
      }
      var row := itemRows[i].value;
      ghost var before := Values(itemRows[..i]);
      assert Values(itemRows[..i + 1]) == before + [row];
      itemMap := itemMap[row.orderUID := ItemsOf(itemMap, row.orderUID) + [row.item]];
      forall uid
        ensures ItemsOf(itemMap, uid) == Grouped(before + [row], uid)
      {
        GroupedSnoc(before, row, uid);
      }
      i := i + 1;
    }
    assert itemRows[..i] == itemRows;
    return itemMap, None;
  }

  /** The attach loop of GetAllOrders: each order takes `itemMap[order.OrderUID]`. */
  method AttachItems(orders: seq<Order>, itemMap: map<string, seq<Item>>, ghost rows: seq<ItemRow>) returns (r: seq<Order>)
    requires GroupedInto(itemMap, rows)
    ensures r == Attach(orders, rows)
  {
    r := orders;
    var k := 0;
    while k < |r|
      invariant 0 <= k <= |r| == |orders|
      invariant forall j :: 0 <= j < k ==> r[j] == Attach(orders, rows)[j]
      invariant forall j :: k <= j < |r| ==> r[j] == orders[j]
    {
      r := r[k := r[k].(items := ItemsOf(itemMap, r[k].orderUID))];
      k := k + 1;
    }
  }

  /**
   * The cursor error GetAllOrders never reads: the items cursor breaks
   * before the one order's item row arrives. As written the order is listed
   * with no items as a success; with `rows.Err()` checked it is an error.
   */
  lemma AllOrdersAsWrittenTruncates(o: Order)
    ensures var orders, items := Rows([Scanned(o)], None), Rows([], Some(Plain("connection reset")));
      && AllOrdersAsWritten(orders, items) == Success([o.(items := [])])
      && AllOrders(orders, items) == Failure(Wrapped(ReadItemsFailed, Plain("connection reset")))
  {
    var orders := Rows([Scanned(o)], None);
    assert Values(orders.rows) == [o];
    assert Attach([o], []) == [o.(items := [])];
  }

  /**
   * The same for the orders cursor: it breaks after the first order row. As
   * written the one order read so far is returned as the whole list; with
   * `rows.Err()` checked it is an error.
   */
  lemma AllOrdersAsWrittenDropsOrders(o: Order)
    ensures var orders, items := Rows([Scanned(o)], Some(Plain("connection reset"))), Rows([], None);
      && AllOrdersAsWritten(orders, items) == Success([o.(items := [])])
      && AllOrders(orders, items) == Failure(Wrapped(ReadOrdersFailed, Plain("connection reset")))
  {
    var orders := Rows([Scanned(o)], Some(Plain("connection reset")));
    assert Values(orders.rows) == [o];
    assert Attach([o], []) == [o.(items := [])];
  }

  /** Where both cursors end cleanly the two readings of GetAllOrders agree. */
  lemma AllOrdersAgreesWithoutCursorError(orderQuery: Query<Order>, itemQuery: Query<ItemRow>)
    requires orderQuery.Rows? ==> orderQuery.cursorError.None?
    requires itemQuery.Rows? ==> itemQuery.cursorError.None?
    ensures AllOrdersAsWritten(orderQuery, itemQuery) == AllOrders(orderQuery, itemQuery)
  {
  }
}
