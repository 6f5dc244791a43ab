# Asynchronous MySQL bridge and sub-server registry, modelled in Dafny

This project models two pieces of the Nightfall authentication server.

The first is the native MySQL bridge (`Native/MySQL/mysql.cpp`, `Native/MySQL/mysql.h`).
Callers submit database operations: connect, set the schema, run a plain or prepared
statement, run an update or a select, fetch rows as arrays or as dictionaries, close.
Each submission appends one `(task, user_data)` item to a FIFO and posts a semaphore.
A single worker wakes once per post and pops the head item. It checks that the payload
size matches the task kind and runs that kind's executor against the one connection.
The executor reports through a callback, named by the caller, on a host object.
The model covers:

- the temporal-string classifier that decides whether a string parameter is bound as a datetime;
- the parameter binder, which maps parameter `i` to a typed bind call at position `i+1`;
- the two result-set materialisers, which produce rows as arrays or rows keyed by column name;
- the queue, the wake counter and the worker loop, run sequentially;
- the executors, against a database oracle.

The second is `Project/Scripts/SubServersContainer.cs`: a table of gateways and a table
of game worlds, keyed by peer id, plus the id of the "optimal" game world.

Modules: `Variants` (the host's `Variant` value and the fixed-width integer casts),
`Tasks` (the header: the `Task` enumeration, `QueueItem`, `_call_function`),
`Classifier`, `Binder`, `ResultSets`, `Engine` (executors and the `MySql` class),
`SubServers`, and `Wrappers` (`Option`).

How the model is built:

- **Database oracle.** Every executed task receives one `DbResponse`. It says whether the
  liveness probe (`isValid() && reconnect()`) succeeds. It also says whether the task's
  one database call throws (`Threw`) or returns an affected-row count and a result set
  (`Returned`).
- **Executors.** Each executor is a pure function giving an `Effect`: the new connection
  and options, plus the database calls made, the log lines written and the callbacks fired.
  `MySql.Step` applies one `Effect`.
- **Closed connections.** `_is_connected_to_database` (mysql.cpp:321-323) asks the client
  library's `isValid()`, which is false on a closed connection. The model states this
  directly: a closed connection is never usable, whatever the oracle answers.
- **Mutex and semaphore.** The mutex is not modelled. The semaphore is the counter `wakes`.
- **Result sets.** A result set is the column metadata plus, for each cell, what the
  client library's getters return. Its integer getters are modelled as fixed-width casts
  of the cell's integer value (32-bit for `getInt`/`getUInt`, 64-bit for
  `getInt64`/`getUInt64`).
- **Host integers.** The host's integer variant is a signed 64-bit value.

## Behaviour as coded

The model follows the code where it departs from what its names suggest:

- **Classifier positions.** The datetime band checks the colons at positions 13 and **15**.
  The short band checks the colon pairs (3,5) and (2,4). The code therefore rejects
  `"2024-01-02 03:04:05"` (colons at 13 and 16), rejects `"12:30:00"` (colons at 2 and 5),
  and rejects the seven-character `"1:30:00"` (no band covers length 7), although all three
  are ordinary MySQL temporal literals.
  `Classifier.LiteralTable` states the code's actual verdicts.
- **Extra arguments.** A callback receives the caller's extra arguments as **one** trailing
  array argument. They are not spread out (`_call_function(p_target, p_callback, success, p_args)`).
- **Select row counts.** The prepared select passes the row count to its callback
  (mysql.cpp:199). The plain select does not (mysql.cpp:174).
- **INTEGER columns.** The integer family in both materialisers is TINYINT, SMALLINT,
  MEDIUMINT and BIGINT. An `INTEGER` column therefore falls into the default branch and
  comes out as its text.
- **Unsigned BIGINT in dictionary form.** This form reads such a column with `getUInt64`
  and stores the result into the host's signed 64-bit integer. A value of 2^63 or more
  comes out negative, shifted by 2^64 (`ResultSets.DictIntegers`). It does not keep its
  unsigned magnitude.
- **Array-form integers.** The array form reads integers through the 32-bit getters.
  Unsigned values keep only their low 32 bits (`ResultSets.ArrayIntegers`).
- **Lock scope.** Each executor takes the lock on entry and releases it after the callback.
  The lock is not released around the database call. This does not matter in a sequential model.
- **`GameWorldExists`** consults the gateway table, and `Exists` therefore reduces to
  gateway membership. **`AddGameWorld`** sets the optimal id before inserting, so the id
  changes even when the insertion fails on a duplicate key.

## Model

| member | source | states |
|---|---|---|
| Variants.WrapInt64 | Native/MySQL/mysql.cpp:389-391 | the cast to a signed 64-bit integer agrees with its argument modulo 2^64 and keeps every value of the signed 64-bit range |
| Variants.WrapInt32 | Native/MySQL/mysql.cpp:423-425 | the cast to a signed 32-bit integer agrees with its argument modulo 2^32 and keeps every value of the signed 32-bit range |
| Variants.TypeId | Native/MySQL/mysql.cpp:347 | a value's host type number is below 27, and it is one of 5-16 or 20-26 exactly for the kinds this model gives no constructor of their own |
| Variants.ObjectValue | Native/MySQL/mysql.cpp:572 | a target packed into a payload reads back as the same target, null or not |
| Tasks.FromOrdinal | Native/MySQL/mysql.h:33-47 | a task kind exists for exactly the numbers 0 to 12 |
| Tasks.TaskNumbering | Native/MySQL/mysql.h:33-47 | the thirteen kinds and the numbers 0-12 are in one-to-one correspondence, in declaration order |
| Tasks.Arity | Native/MySQL/mysql.cpp:454-535 | the accepted payload size is 3 exactly for connect and close, 5 exactly for the five prepared kinds, and 4 otherwise |
| Tasks.Payload | Native/MySQL/mysql.cpp:562-751 | the payload each enqueue method packs has its kind's accepted size, and the worker's unpacking reads back the packed target, callback name, extra arguments, query or schema, and prepared parameters unchanged (the arrays as values: see "Left out") |
| Tasks.CallFunction | Native/MySQL/mysql.h:88-93 | a call is made exactly when the target is non-null, at most once, to the named method with the arguments in order |
| Classifier.DatetimeBand | Native/MySQL/mysql.cpp:326-329 | about `IsSqlDatetime`: at lengths 19-26 a string is accepted iff positions 4,7,10,13,15 hold '-','-',' ',':',':'; no other shape is tried |
| Classifier.ShortBand | Native/MySQL/mysql.cpp:330-337 | about `IsSqlDatetime`: at lengths 8-16 a string is accepted iff it starts with '-', or has ':' at 3 and 5, or ':' at 2 and 4, or is of length 10 with '-' at 4 and 7 |
| Classifier.YearBand | Native/MySQL/mysql.cpp:338-339 | about `IsSqlDatetime`: every four-character string is accepted |
| Classifier.OutsideBands | Native/MySQL/mysql.cpp:325-343 | about `IsSqlDatetime`: every length other than 4, 8-16 and 19-26 is rejected |
| Classifier.LiteralTable | Native/MySQL/mysql.cpp:325-343 | about `IsSqlDatetime`, concrete verdicts: "2024-01-02", "2024" and "abcd" are accepted; "2024-01-02 03:04:05", "12:30:00", "1:30:00", "hello" and "" are rejected |
| Binder.BindingRoundTrip | Native/MySQL/mysql.cpp:347-366 | about `BindingOf`: each bindable value is bound without loss; a string becomes a datetime binding iff the classifier accepts it, and a string binding otherwise |
| Binder.BindingsExact | Native/MySQL/mysql.cpp:345-371 | about `Bindings`: position k is bound iff 1 <= k <= n and parameter k-1 is null, bool, int, real or string, and it then holds that parameter's binding |
| Binder.WarningsExact | Native/MySQL/mysql.cpp:367-369 | about `Warnings`: the warnings name exactly the unbindable parameters, each with its index and type number, in increasing index order |
| Binder.PrepareStatement | Native/MySQL/mysql.cpp:345-372 | the loop binds parameter i at position i+1 by type, leaves unsupported ones unbound and warns about exactly them |
| ResultSets.ArrayIntegers | Native/MySQL/mysql.cpp:419-428 | about `ArrayCell`: array-form integers: signed 32-bit values are kept; unsigned readings are never negative, keep the low 32 bits, and keep every value below 2^32 |
| ResultSets.DictIntegers | Native/MySQL/mysql.cpp:384-393 | about `DictCell`: dictionary-form integers: signed 64-bit values and unsigned values up to 2^63-1 are kept; unsigned values from 2^63 come out shifted by -2^64 |
| ResultSets.FormsAgreeOffIntegers | Native/MySQL/mysql.cpp:380-403 | about `ArrayCell` and `DictCell`: outside the four integer types both forms read a cell alike (BIT as bool, the real types as double, the rest as text), and INTEGER columns come out as text |
| ResultSets.ProcessResultSetAsArray | Native/MySQL/mysql.cpp:409-442 | one output row per result row, in order, each with exactly one cell per column, in column order, read by the column's type and signedness |
| ResultSets.DictRowKeys | Native/MySQL/mysql.cpp:377-406 | about `DictRow`: a dictionary row's keys are exactly the column names |
| ResultSets.DictRowLastWins | Native/MySQL/mysql.cpp:379-404 | about `DictRow`: under a name shared by several columns, the row holds the cell of the last of them |
| ResultSets.ProcessResultSetAsDictionary | Native/MySQL/mysql.cpp:374-407 | one dictionary per result row, in order, keyed by every column name, with later columns overwriting earlier ones of the same name |
| Engine.Closed | Native/MySQL/mysql.cpp:311-319 | closing keeps a connection present or absent as it was, and leaves a present one closed in the same schema |
| Engine.ClosedIdempotent | Native/MySQL/mysql.cpp:311-319 | closing twice equals closing once; an absent or already closed connection is left alone |
| Engine.Execute | Native/MySQL/mysql.cpp:454-535 | one dispatched item makes at most one database call and fires at most one callback |
| Engine.MalformedItemDropped | Native/MySQL/mysql.cpp:454-535 | an item whose payload size is not its kind's arity runs no executor: no call, no log line, no database call, no state change |
| Engine.CallbackGuarded | Native/MySQL/mysql.cpp:454-535 | a well-sized item fires its callback iff its target is non-null, on that target and method, with the extra-argument array last |
| Engine.CallbackArgs | Native/MySQL/mysql.cpp:29-309 | the arguments of every executor's callback end with the caller's extra-argument array |
| Engine.ExecuteCalls | Native/MySQL/mysql.cpp:454-535 | each dispatched executor reports only through the null-guarded callback, on the payload's target and method, with `CallbackArgs` |
| Engine.ReportEndsWithArgs | Native/MySQL/mysql.cpp:29-309 | every statement report starts with the success flag and ends with the extra-argument array |
| Engine.ConnectOutcome | Native/MySQL/mysql.cpp:29-47 | about `ConnectEffect` through `Execute`: connect always asks the driver with the current options; success installs an open connection in the configured schema, a throw keeps the old connection and logs the error |
| Engine.SchemaOutcome | Native/MySQL/mysql.cpp:49-67 | about `SchemaEffect` through `Execute`: on a usable connection the schema option is stored even if the switch throws; the connection's schema and the reported flag change only on success |
| Engine.UnusableConnectionFails | Native/MySQL/mysql.cpp:69-88 | about `Usable` and `StatementEffect`/`SchemaEffect` through `Execute`: without a usable connection (none, closed, or the probe fails) every kind but connect and close reports false and records no request, no log line and no state change |
| Engine.UpdateOutcome | Native/MySQL/mysql.cpp:113-154 | about `StatementEffect` through `Execute`: an update reports (false, 0) when the connection is unusable or the call throws, and (true, n) with the affected count otherwise |
| Engine.SelectReports | Native/MySQL/mysql.cpp:156-202 | about `StatementEffect` through `Execute`: the plain select reports only its flag; the prepared select also reports the row count, 0 on failure |
| Engine.PreparedKindsBind | Native/MySQL/mysql.cpp:90-111 | about `StatementEffect` with `Bindings`/`Warnings`: on a usable connection a prepared kind sends one prepared call with exactly the binder's bindings, after logging the binder's warnings |
| Engine.FetchDeliversRows | Native/MySQL/mysql.cpp:204-299 | about `StatementEffect` with `ArrayRows`/`DictRows`: a successful fetch passes true and the whole materialised result, in array or dictionary form by kind |
| Engine.StateChangesByKind | Native/MySQL/mysql.cpp:29-309 | only connect, set-schema and close can change the connection, only set-schema the options, and close leaves `Closed` of the old connection and records no request |
| Engine.ClosedConnectionRefuses | Native/MySQL/mysql.cpp:301-323 | after a close item has run, any later item but connect and close reports false with no database call, no log line and no change to the connection the close left |
| Engine.PackedItemExecutes | Native/MySQL/mysql.cpp:454-751 | an item as an enqueue method packs it calls back the packed target and method with the packed extra arguments last, and asks the database with the packed query, schema or bound parameters |
| Engine.Serve | Native/MySQL/mysql.cpp:444-540 | serving n items, each on the state the earlier ones left, makes at most n callbacks and at most n database calls |
| Engine.ServeExtends | Native/MySQL/mysql.cpp:444-540 | serving one more item appends exactly that item's executed effect to the output of serving the earlier ones |
| Engine.ServeCallbacksInOrder | Native/MySQL/mysql.cpp:444-540 | well-sized items with targets fire exactly one callback each, in queue order, on the item's own target and method |
| Engine.MySql.constructor | Native/MySQL/mysql.cpp:778-783 | a new bridge has no connection, an empty queue, no pending wake and only the reconnect option set |
| Engine.MySql.SetCredentials | Native/MySQL/mysql.cpp:551-560 | host, port, user name and password options are overwritten, other options kept, nothing queued |
| Engine.MySql.QueueTask | Native/MySQL/mysql.cpp:6-12 | the item goes on the tail with one wake posted and nothing else changes |
| Engine.MySql.ConnectToDatabase | Native/MySQL/mysql.cpp:562-579 | the worker is running afterwards, and one connect item (target, callback, args) is queued with one wake, its payload packed by `Payload` |
| Engine.MySql.SetSchema | Native/MySQL/mysql.cpp:726-738 | one set-schema item (schema, target, callback, args) is queued with one wake, its payload packed by `Payload` |
| Engine.MySql.ExecuteQuery | Native/MySQL/mysql.cpp:581-593 | one execute item (query, target, callback, args) is queued with one wake, its payload packed by `Payload` |
| Engine.MySql.ExecutePreparedQuery | Native/MySQL/mysql.cpp:595-608 | one prepared execute item (query, params, target, callback, args) is queued with one wake, its payload packed by `Payload` |
| Engine.MySql.ExecuteUpdateQuery | Native/MySQL/mysql.cpp:610-622 | one update item is queued with one wake, its payload packed by `Payload` |
| Engine.MySql.ExecutePreparedUpdateQuery | Native/MySQL/mysql.cpp:624-637 | one prepared update item is queued with one wake, its payload packed by `Payload` |
| Engine.MySql.ExecuteSelectQuery | Native/MySQL/mysql.cpp:639-651 | one select item is queued with one wake, its payload packed by `Payload` |
| Engine.MySql.ExecutePreparedSelectQuery | Native/MySQL/mysql.cpp:653-666 | one prepared select item is queued with one wake, its payload packed by `Payload` |
| Engine.MySql.FetchArray | Native/MySQL/mysql.cpp:668-680 | one array fetch item is queued with one wake, its payload packed by `Payload` |
| Engine.MySql.FetchPreparedArray | Native/MySQL/mysql.cpp:682-695 | one prepared array fetch item is queued with one wake, its payload packed by `Payload` |
| Engine.MySql.FetchDictionary | Native/MySQL/mysql.cpp:697-709 | one dictionary fetch item is queued with one wake, its payload packed by `Payload` |
| Engine.MySql.FetchPreparedDictionary | Native/MySQL/mysql.cpp:711-724 | one prepared dictionary fetch item is queued with one wake, its payload packed by `Payload` |
| Engine.MySql.CloseConnection | Native/MySQL/mysql.cpp:740-751 | one close item (target, callback, args) is queued with one wake, its payload packed by `Payload` |
| Engine.MySql.Step | Native/MySQL/mysql.cpp:445-539 | one wake is consumed; only the head item leaves and is executed with the state updated by its effect; on an empty queue nothing else changes; FIFO history and wake/queue balance are kept |
| Engine.MySql.StepServed | Native/MySQL/mysql.cpp:445-539 | one iteration on a non-empty queue extends a state that reflects serving the earlier items to one that reflects serving the head as well |
| Engine.MySql.Turn | Native/MySQL/mysql.cpp:445-539 | one iteration of the worker loop, with or without an item at the head, keeps `Progress`: the served items are a prefix of the starting queue taken in order, and the state is what serving that prefix produces |
| Engine.MySql.Run | Native/MySQL/mysql.cpp:444-540 | the worker serves min(wakes, queue length) items from the head in insertion order; the connection, the options and all calls, log lines and database requests are exactly those of `Serve` over the served items; queue drained when wakes match it |
| SubServers.SubServersContainer.constructor | Project/Scripts/SubServersContainer.cs:26-32 | both tables start empty and the optimal id is -1 |
| SubServers.SubServersContainer.AddGateway | Project/Scripts/SubServersContainer.cs:34-50 | a new id is inserted; an existing id is a duplicate-key error that changes nothing; either way `GatewayExists` and `Exists` then hold for the id |
| SubServers.SubServersContainer.AddGameWorld | Project/Scripts/SubServersContainer.cs:21-45 | `OptimalGameWorldId` then returns the peer, even on a duplicate; a new id is inserted; the gateway table is untouched |
| SubServers.SubServersContainer.GameWorldExists | Project/Scripts/SubServersContainer.cs:52-55 | always equal to gateway membership |
| SubServers.SubServersContainer.RemoveGateway | Project/Scripts/SubServersContainer.cs:47-60 | removes the id, reports whether `GatewayExists` held for it before, and `GatewayExists` fails for it afterwards |
| SubServers.SubServersContainer.RemoveGameWorld | Project/Scripts/SubServersContainer.cs:62-65 | removes the id and reports whether it was present, leaving the optimal id alone |
| SubServers.SubServersContainer.Remove | Project/Scripts/SubServersContainer.cs:73-80 | reports whether the id was in either table; the gateway table is tried first, at most one table changes, and `GatewayExists` and `Exists` fail for the id afterwards |
| SubServers.SubServersContainer.Exists | Project/Scripts/SubServersContainer.cs:77-80 | equals gateway membership alone |
| SubServers.AddedGameWorldNotFound | Project/Scripts/SubServersContainer.cs:39-55 | a game world just added to a fresh registry is reported by neither GameWorldExists nor Exists, and is the optimal one |
| SubServers.OptimalOutlivesRemoval | Project/Scripts/SubServersContainer.cs:39-65 | after adding and removing a game world the optimal id still names the removed peer |
| SubServers.RemoveTakesOneTableAtATime | Project/Scripts/SubServersContainer.cs:73-76 | a peer in both tables loses only its gateway on the first Remove and its game world on the second |

## Left out

- Threads, the mutex and the semaphore's blocking. The worker runs sequentially: `Step` is one
  loop iteration after a wake, and `Run` iterates until no wake is pending.
- The destructor's shutdown handshake (mysql.cpp:785-791). The `exit` flag is set only there,
  so it is always false in the modelled part and is not a field.
- The lock being held while callbacks run: the model is sequential and has no lock.
- The MySQL Connector/C++ calls. They are the `DbResponse` oracle. Only two outcomes are
  modelled per call, a throw or a return with a row count and a result set. A throw inside
  `prepareStatement` or a bind call is treated like a throw from the execution, so the
  binder's warnings are still logged.
- Throws from `isValid`, `reconnect` or `close`. The liveness probe is one boolean.
- Materialisation cannot fail midway in the model, because the result set is given whole.
- Godot's `Object::call` dispatch. A callback is recorded as a `Call` value.
- Tasks.Payload and the thirteen enqueue methods of `Engine.MySql`: the parameter and extra-argument
  arrays are captured as values when the item is queued. The host shares an `Array`'s storage
  with its copies (mysql.cpp:562-751), so a change the caller makes to either array after
  enqueueing and before dispatch reaches the binder (mysql.cpp:345-372) and the callback
  (mysql.cpp:108). The model does not capture that change. Its round trip holds only for
  arrays the caller leaves alone.
- Godot's conversions of ill-typed payload entries. `AsString`, `AsObject` and `AsArray`
  read a wrong-typed entry as "", null or an empty array. Payloads built by the enqueue
  methods always have the right types.
- A null target is an absent value in the payload rather than a null object variant.
  It reads back as null either way.
- The UTF-8 conversions between the host's strings and the client's. Strings are character sequences.
- Double-precision values. They are opaque bit patterns, passed through unchanged.
- Dictionary key order. Host dictionaries are insertion-ordered; maps here are unordered.
- The driver singleton lookup (`get_mysql_driver_instance`), log message formatting, and
  method registration (`_register_methods`, `_init`, `thread_func`).
- `SubServersContainer`: the lazy singleton accessor and the empty
  `IncrementGameWorldPlayerCount` stub. The `Gateway` and `GameWorld` classes are not part
  of this model; they are unit records here.
