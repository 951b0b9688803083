# wb-level0 order pipeline, modelled in Dafny

wb-level0 is a Go service. It takes orders off a NATS JetStream subject, validates
them, stores them in PostgreSQL and serves them over HTTP from an in-memory cache.
This project models the core of that pipeline and proves what each part promises:

- **Order cache** (module `Cache`): a table from order UID to order. It has `Set`,
  `Get`, `Delete`, `GetAll`, and a `Restore` that bulk-loads the table from the store
  at start-up.
- **Order service** (module `Service`): validate, then save, then write through on
  `CreateOrder`. `GetOrder` is a cache-aside read. `GetAllOrders` answers from the
  cache when the cache holds anything and otherwise fills it from the store. A
  start-up method follows the order of `main`: restore the cache, treat a failure as
  fatal, then build the service.
- **Message consumer** (module `Nats`): when a message is acknowledged (Ack) or
  negatively acknowledged (Nak, so it is redelivered), plus the subscription state
  machine over `sub` and `subject`.
- **PostgreSQL repository logic** (module `Postgres`), with the SQL abstracted to row
  sequences and per-step failures:
  - the all-or-nothing transaction of `SaveOrder`;
  - the "no rows means not found" mapping of `GetOrderByID`;
  - the item-grouping join of `GetAllOrders`.

Supporting modules:

- `Wrappers`: `Option` and `Result`.
- `Errors`: Go errors as values. `fmt.Errorf("...: %w", err)` is an explicit
  `Wrapped` layer. A type assertion (`IsValidationErrors`) sees only the outermost
  layer. `errors.As` (`AsValidationErrors`) searches the unwrap chain.
- `Domain`: the order, delivery, payment and item records, and the validator's
  verdict.
- `OrderTable`: the key invariant shared by cache and store (every key is its
  order's UID) and the enumeration of a table. It also has the fold that stores a
  list of orders one by one.
- `Repository`: the store as the service and the cache see it, through their
  `OrderRepository` interfaces. It is a class over a keyed map. Each call takes the
  failure the environment answers with.

Outside failures are parameters, never chosen by the model:

- a database or broker error is a `fault`;
- a `faults` map gives the step of a transaction that fails;
- the result of JSON decoding is passed in;
- the broker's answer to a subscribe is passed in.

Every contract therefore holds for every answer the environment can give.

## Model

| member | source | states |
|---|---|---|
| Errors.Chain | internal/service/order_service.go:94 | the unwrap chain starts at the error itself, each link is the cause of the one before, and it ends at an error that wraps nothing |
| Errors.IsValidationErrors | internal/nats/subsciber.go:44 | the type assertion fails on every wrapped error, and on an unwrapped one agrees with `errors.As` |
| Errors.AsValidationErrorsSearchesChain | internal/service/order_service.go:94 | `errors.As` for a validation error holds exactly when some error on the unwrap chain passes the type assertion (both directions) |
| Errors.WrappingHidesTypeButNotCause | internal/service/order_service.go:94 | `%w` wrapping always defeats a type assertion, and `errors.As` sees through it unchanged |
| OrderTable.Enumerate | internal/repository/cache/cache.go:73-79 | the list built by ranging over a keyed table holds each stored order exactly once: same count, same set of UIDs, each entry is the stored value, UIDs pairwise distinct |
| OrderTable.ListOneMore | internal/repository/cache/cache.go:75-78 | appending one not-yet-listed value keeps the partial enumeration exact for the remaining keys |
| OrderTable.StoreAllKeyed | internal/repository/cache/cache.go:56-58 | storing each order under its own UID keeps every key equal to its order's UID |
| OrderTable.UIDsSnoc | internal/repository/cache/cache.go:56-58 | the UIDs of a list are those of all but its last order plus the last order's UID |
| OrderTable.UIDsAppend | internal/repository/cache/cache.go:56-58 | appending an order adds exactly its UID to the list's UIDs |
| OrderTable.StoreAllKeys | internal/repository/cache/cache.go:56-58 | after storing a list the keys are the old keys plus the list's UIDs: nothing is cleared |
| OrderTable.StoreAllUntouched | internal/repository/cache/cache.go:56-58 | an existing entry whose UID the list does not mention keeps its value |
| OrderTable.StoreAllLastWins | internal/repository/cache/cache.go:56-58 | for a repeated UID the last order in the list is the one stored |
| OrderTable.IndexOf | internal/repository/cache/cache.go:73-79 | every key of an enumerated table appears at a position of the enumeration, holding its value, and no later position repeats its UID |
| OrderTable.StoreAllEnumeration | internal/repository/cache/cache.go:56-58 | storing an enumeration of a table into another table gives their union with the enumerated table winning |
| OrderTable.StoreAllEnumerationAt | internal/repository/cache/cache.go:56-58 | the same union, key by key |
| Repository.Store.constructor | internal/repository/postgres/order_repo.go:17-19 | a store over previously persisted orders, keyed by UID |
| Repository.Store.SaveOrder | internal/repository/postgres/order_repo.go:21-87 | all or nothing: the store's answer is returned, and the order is stored under its UID exactly when there is no failure |
| Repository.Store.GetOrderByID | internal/repository/postgres/order_repo.go:89-143 | a failure is returned as is; otherwise found exactly when the UID is stored, with the stored order, and not-found is a success |
| Repository.Store.GetAllOrders | internal/repository/postgres/order_repo.go:145-211 | a failure is returned as is; otherwise every stored order exactly once |
| Cache.OrderCache.constructor | internal/repository/cache/cache.go:22-27 | a new cache is empty and reads from the given store |
| Cache.OrderCache.Set | internal/repository/cache/cache.go:29-33 | the order is stored under its UID, every other key keeps its value, and the key invariant holds |
| Cache.OrderCache.Get | internal/repository/cache/cache.go:35-43 | a hit exactly when the UID is stored, returning the stored order; it changes nothing |
| Cache.OrderCache.Delete | internal/repository/cache/cache.go:67-71 | the key is gone afterwards and every other entry is unchanged |
| Cache.OrderCache.GetAll | internal/repository/cache/cache.go:73-80 | every cached order exactly once, in no specified order |
| Cache.OrderCache.Restore | internal/repository/cache/cache.go:45-65 | a failed fetch returns the wrapped error and leaves the table unchanged; on success every stored order is added under its UID and existing entries are kept |
| Cache.SetTwice | internal/repository/cache/cache.go:29-33 | `Set(o); Set(o)` leaves the table a single `Set(o)` leaves |
| Service.CreateResult | internal/service/order_service.go:89-109 | a rejected order gives the wrapped validation error whatever the store would answer; an accepted order fails exactly when saving fails, with the wrapped store error |
| Service.EnumeratedFromStore | internal/service/order_service.go:38-42 | when the cache is never ahead of the store, every order it lists is the store's order under that UID |
| Service.SetEach | internal/service/order_service.go:53-55 | the fill loop stores the fetched orders one by one, in list order |
| Service.OrderService.constructor | internal/service/order_service.go:29-35 | a service over a store and a cache that holds nothing the store does not |
| Service.OrderService.GetAllOrders | internal/service/order_service.go:37-60 | a non-empty cache answers alone, the store untouched and its failure irrelevant; with an empty cache a store failure is wrapped and the cache stays empty, and success returns every stored order exactly once and leaves the cache equal to the store; every listed order is the store's |
| Service.OrderService.GetOrder | internal/service/order_service.go:62-87 | a hit returns the cached order; on a miss a store error is wrapped and the cache unchanged, not-found is `(nil, nil)` with the cache unchanged, and a found order is returned and cached under its UID; any success equals what the store holds |
| Service.OrderService.CreateOrder | internal/service/order_service.go:89-109 | the error is `CreateResult` of the validator's verdict and the store's answer; on success both store and cache hold the order under its UID; on any error neither changes |
| Service.Startup | cmd/app/main.go:52-60 | a failed restore ends start-up with the wrapped error and no service; otherwise the service starts over a cache equal to the store, so the service invariant holds from the start |
| Nats.DecideAsWritten | internal/nats/subsciber.go:33-56 | as written, Ack exactly when the service succeeded or its error's outermost type is a validation error; Nak for every decode failure |
| Nats.Decide | internal/nats/subsciber.go:33-56 | decode failure is Nak, success is Ack, and an error is Ack exactly when a validation error is somewhere on its unwrap chain |
| Nats.AsWrittenNaksEveryCreateError | internal/nats/subsciber.go:44-50 | as written, every error `CreateOrder` can return is Nak'd: the validation branch can never be taken |
| Nats.AsWrittenNaksValidationFailure | internal/nats/subsciber.go:44-50 | a rejected order is Nak'd as written and Ack'd by the corrected decision |
| Nats.DecideFollowsAckPolicy | internal/nats/subsciber.go:42-55 | with the corrected decision, a validation failure is Ack, a store failure is Nak and a saved order is Ack |
| Nats.Subscriber.constructor | internal/nats/subsciber.go:24-30 | a new subscriber is not subscribed and holds no subject |
| Nats.Subscriber.Subscribe | internal/nats/subsciber.go:32-66 | a broker failure returns the wrapped error and leaves `sub` and `subject` unchanged; success records both |
| Nats.Subscriber.Unsubscribe | internal/nats/subsciber.go:68-82 | not subscribed is an error with no change, and then no subject is recorded; a broker failure returns the wrapped error with no change; success clears `sub` and `subject` |
| Nats.Subscriber.HandleMessage | internal/nats/subsciber.go:33-56 | a decode failure is Nak without touching store or cache; otherwise the reply is the decision on `CreateOrder`'s result; a created order is stored in both store and cache under its UID with nothing else changed, and on an error neither changes |
| Postgres.Plan | internal/repository/postgres/order_repo.go:24-83 | the transaction's steps: begin, order, delivery, payment, one insert per item in slice order, commit |
| Postgres.Inserts | internal/repository/postgres/order_repo.go:32-78 | the rows a commit writes: order, delivery, payment, then each item in slice order under the order's UID |
| Postgres.FirstFault | internal/repository/postgres/order_repo.go:24-83 | the index of the first failing step: no step before it fails, and it fails unless it is past the end |
| Postgres.FirstFaultAt | internal/repository/postgres/order_repo.go:24-83 | a plan whose first failing step is `k` does not run clean and aborts exactly there |
| Postgres.NoFaultAt | internal/repository/postgres/order_repo.go:24-83 | a plan none of whose steps fails runs clean |
| Postgres.ItemStep | internal/repository/postgres/order_repo.go:66-78 | one turn of the item loop either aborts the plan at that item or extends the trace and the pending rows by it |
| Postgres.ItemsDone | internal/repository/postgres/order_repo.go:66-78 | after the last item only the commit is left and every row is pending |
| Postgres.InsertItems | internal/repository/postgres/order_repo.go:66-78 | the item loop inserts each item in slice order and stops at the first failure, whose wrapped error it returns |
| Postgres.SaveOrder | internal/repository/postgres/order_repo.go:21-87 | it succeeds exactly when no step fails, and then commits every row in plan order; otherwise it runs the steps up to and including the first failure, returns that step's error under its context, and commits nothing |
| Postgres.Values | internal/repository/postgres/order_repo.go:129-139 | the scanned values, one per row, in row order |
| Postgres.ScanCons | internal/repository/postgres/order_repo.go:129-139 | rows scan cleanly when the first does and the rest do, and the values follow |
| Postgres.ScanAll | internal/repository/postgres/order_repo.go:129-139 | the scan loop succeeds exactly when every row scans, and returns the values in row order |
| Postgres.ScanAllFirstFailure | internal/repository/postgres/order_repo.go:129-139 | a failed scan loop reports the first row that fails to scan |
| Postgres.FetchAsWritten | internal/repository/postgres/order_repo.go:120-139 | a query read as written: a query error and the first scan error are wrapped, and otherwise it succeeds with every scanned value whatever the cursor error |
| Postgres.Fetch | internal/repository/postgres/order_repo.go:120-139 | a query read with the cursor error checked succeeds exactly when the query, every scan and the cursor are clean |
| Postgres.OrderByID | internal/repository/postgres/order_repo.go:89-143 | no rows is not-found (`nil, nil`), any other header error is wrapped, and an order is returned exactly when its items read cleanly, with all of them in row order |
| Postgres.GetOrderByID | internal/repository/postgres/order_repo.go:89-143 | the method, with its append loop over the item rows, computes `OrderByID` |
| Postgres.OrderByIDAsWritten | internal/repository/postgres/order_repo.go:89-143 | as written: no rows is not-found, any other header error is wrapped, and an order is returned exactly when the items query runs and every row scans, a cursor error or not |
| Postgres.OrderByIDAsWrittenTruncates | internal/repository/postgres/order_repo.go:129-142 | as written, a cursor error before the item rows gives an order with no items as a success, where the corrected read fails |
| Postgres.OrderByIDAgreesWithoutCursorError | internal/repository/postgres/order_repo.go:129-142 | without a cursor error the code as written and the corrected read agree |
| Postgres.MatchingAppend | internal/repository/postgres/order_repo.go:191-203 | selecting one UID's items distributes over concatenated rows |
| Postgres.GroupedIsMatching | internal/repository/postgres/order_repo.go:191-203 | appending row by row into the map holds, for each UID, exactly the items a front-to-back filter selects |
| Postgres.MatchingMembers | internal/repository/postgres/order_repo.go:191-203 | an item is grouped under a UID exactly when a row pairs it with that UID |
| Postgres.GroupedSnoc | internal/repository/postgres/order_repo.go:202 | one more row appends its item to its own UID's group only |
| Postgres.Attach | internal/repository/postgres/order_repo.go:205-207 | one entry per order row |
| Postgres.AttachGroupsItems | internal/repository/postgres/order_repo.go:191-207 | each order keeps its position and columns, and its items are exactly its UID's item rows in row order; rows of unknown UIDs are dropped, and an order without rows gets none |
| Postgres.AllOrders | internal/repository/postgres/order_repo.go:145-211 | it succeeds exactly when both queries are clean, then returns the order rows with their items attached; a failed orders query comes first, then a failed items query |
| Postgres.GetAllOrders | internal/repository/postgres/order_repo.go:145-211 | the method, with its scan, group and attach loops, computes `AllOrders` |
| Postgres.GroupItems | internal/repository/postgres/order_repo.go:191-203 | the item loop fails exactly when some row fails to scan, reporting the first such row; otherwise every UID's map entry is its group of items |
| Postgres.AttachItems | internal/repository/postgres/order_repo.go:205-207 | the attach loop gives each order the map's entry for its UID, which is its group |
| Postgres.AllOrdersAsWritten | internal/repository/postgres/order_repo.go:145-211 | as written: it succeeds exactly when both queries run and every row scans, a cursor error or not, and then returns the order rows read with their items attached; a failed orders query comes first, then a failed items query |
| Postgres.AllOrdersAsWrittenTruncates | internal/repository/postgres/order_repo.go:181-210 | as written, a cursor error on the items query lists the order with no items as a success, where the corrected read fails |
| Postgres.AllOrdersAsWrittenDropsOrders | internal/repository/postgres/order_repo.go:164-179 | as written, a cursor error on the orders query after one row returns that one order as the whole list, where the corrected read fails |
| Postgres.AllOrdersAgreesWithoutCursorError | internal/repository/postgres/order_repo.go:145-211 | without cursor errors the code as written and the corrected read agree |

## Left out

- Concurrency: `sync.Map` and concurrent callbacks are a sequential map and sequential calls.
- Logging: every `slog` call is left out.
- Timing in `Restore`: the duration measurement is left out.
- Pointer aliasing: orders are values. The cache stores `*domain.Order`, and the repository assigns `order.Items` through pointers. Sharing between the cache, the service's results and the repository is not modelled.
- Validation: `order.Validate()` is not part of this model. The service holds an uninterpreted `validate` function. A rejection is assumed to come back as the validator's `ValidationErrors` value, unwrapped.
- JSON: decoding of the message payload is not modelled; `HandleMessage` receives the decode result.
- Broker options (`DeliverNew`, `ManualAck`, `AckWait`, `MaxDeliver`), redelivery and the registration of the callback belong to NATS JetStream and are not modelled. `HandleMessage` is the callback body for one message.
- Database details: SQL text, the JOINs, `rows.Scan` column mapping, `database/sql` transaction internals and rollback errors are reduced to row sequences and per-step failures.
- Order header columns: `OrderInfo` stands for the order's header columns. The inserts of the header columns themselves are not broken out.
- Nil versus empty slices: they are not distinguished. An order without item rows gets an empty `items` where Go leaves `nil`.
- Field types: `time.Time` is an integer. No arithmetic is done on any field, so Go's integer widths do not matter.
- Repository.Store: two assumptions. Its reads are the corrected ones: `Postgres.GetOrderByID` and `Postgres.GetAllOrders` with the cursor error checked. And nothing but `SaveOrder` writes to it; another writer that deletes orders from the database is not modelled. Both matter. `Service.OrderService.Valid` requires the cache never to be ahead of the store, which such a deletion would break. And two results hold only under the corrected reads: `Service.Startup`'s "cache equal to the store" and `Service.OrderService.GetOrder`'s "any success equals what the store holds". As written, a cursor error lets a read succeed with a truncated answer, which `Restore` and `GetOrder` then cache (see Findings).
- Repository.Store: it is the store at the level of the service's and cache's interfaces. Its `GetAllOrders` promises each stored order once, in any order; the row order and grouping are modelled only in `Postgres`.
- Postgres.GetOrderByID / Postgres.GetAllOrders: these methods implement the reads with `rows.Err()` checked, as intended. The code as written is `Postgres.OrderByIDAsWritten` and `Postgres.AllOrdersAsWritten` (see Findings).
- Nats.Subscriber.HandleMessage: it uses the corrected decision `Nats.Decide` (`errors.As`). The decision as written is `Nats.DecideAsWritten` (see Findings).
- Other files: HTTP handlers, configuration loading, the publishers, the random order generator, the load-test harness and the rest of `main`'s wiring (database pool, NATS connection, stream setup, HTTP server) are not part of this model.

## Findings

| source | as written | input that shows it | evidently intended | confidence | as-written member | corrected member |
|---|---|---|---|---|---|---|
| internal/nats/subsciber.go:44 | the callback tests `err.(validator.ValidationErrors)`, but `CreateOrder` wraps the validation error with `%w` (internal/service/order_service.go:94), so the outermost type never matches | an order the validator rejects, e.g. with violations `["OrderUID"]`: `CreateOrder` returns `invalid order data: <ValidationErrors>`, and the message is Nak'd and redelivered | `errors.As`: Ack a validation failure so that invalid data is not redelivered | high; not executed | Nats.AsWrittenNaksValidationFailure | Nats.Decide |
| internal/repository/postgres/order_repo.go:129-142 | the item loop of `GetOrderByID` ends at `rows.Next() == false` and never checks `rows.Err()`, so a cursor error reads as the end of the rows | the header scans, then the item cursor fails before the first row (`Rows([], Some(error))`): the order is returned with no items and no error | check `rows.Err()` after the loop and return the error | medium; not executed | Postgres.OrderByIDAsWrittenTruncates | Postgres.GetOrderByID |
| internal/repository/postgres/order_repo.go:164-210 | neither loop of `GetAllOrders` checks `rows.Err()`, so a cursor error truncates the orders or their items silently | one clean order row, then the items cursor fails before its row: the order is listed with no items and no error | check `rows.Err()` after each loop and return the error | medium; not executed | Postgres.AllOrdersAsWrittenTruncates, Postgres.AllOrdersAsWrittenDropsOrders | Postgres.GetAllOrders |
