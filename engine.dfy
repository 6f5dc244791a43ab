/**
 * The asynchronous task engine of the database bridge, run sequentially:
 * public operations append (kind, payload) items to a FIFO and post a wake;
 * the single worker consumes one wake per iteration, pops the head item,
 * checks its payload size, runs one executor against the database and
 * reports through the item's callback.
 *
 * The database is an oracle: each executed task gets one `DbResponse` saying
 * whether the liveness probe succeeds and whether the one database call it
 * makes throws or returns (with an affected-row count and a result set).
 * The mutex is not modelled; the semaphore is the counter `wakes`.
 */
module Engine {

  import opened Wrappers
  import opened Variants
  import opened Tasks
  import opened Binder
  import opened ResultSets

  /** The live connection as the bridge sees it. */
  datatype Connection = Connection(closed: bool, schema: string)

  /** The connection options handed to the driver when connecting. */
  type Properties = map<string, Variant>

  /** A database-client exception: its message, native error code and SQL state. */
  datatype SqlError = SqlError(message: string, code: int, sqlState: string)

  /** How the one database call of an executor goes. */
  datatype Reply = Threw(error: SqlError) | Returned(affected: Int32, resultSet: Table)

  /** The oracle's answer for one executed task. */
  datatype DbResponse = DbResponse(alive: bool, reply: Reply)

  /** The database calls the executors make, in the shape they make them. */
  datatype Request =
    | Connect(options: Properties)
    | UseSchema(name: string)
    | Statement(task: Task, query: string)
    | Prepared(task: Task, query: string, bindings: map<nat, Binding>)

  /** What the bridge writes to the host's error and warning output. */
  datatype LogEntry = SqlErrorLogged(error: SqlError) | ParameterRejected(warning: Warning)

  /** Everything one worker iteration changes: the connection, the options, and what it sends, logs and calls. */
  datatype Effect = Effect(connection: Option<Connection>, properties: Properties,
                           requests: seq<Request>, log: seq<LogEntry>, calls: seq<Call>)

  const EmptyTable: Table := ResultSet([], [])

  /**
   * `_is_connected_to_database`: a connection exists and the validity/reconnect
   * probe succeeds; the probe always fails on a closed connection.
   */
  predicate Usable(conn: Option<Connection>, resp: DbResponse)
  {
    conn.Some? && !conn.value.closed && resp.alive
  }

  /** The schema a new connection starts in: the "schema" option when it is set. */
  function SchemaOf(props: Properties): string
  {
    if "schema" in props && props["schema"].Str? then props["schema"].s else ""
  }

  /** `_close_connection()`: closes the connection only when one exists and is still open. */
  function Closed(conn: Option<Connection>): (r: Option<Connection>)
    ensures r.Some? <==> conn.Some?
    ensures r.Some? ==> r.value.closed && r.value.schema == conn.value.schema
  {
    if conn.Some? && !conn.value.closed then Some(conn.value.(closed := true)) else conn
  }

  /** Closing twice is closing once. */
  lemma ClosedIdempotent(conn: Option<Connection>)
    ensures Closed(Closed(conn)) == Closed(conn)
    ensures conn.Some? && conn.value.closed ==> Closed(conn) == conn
    ensures conn.None? ==> Closed(conn) == None
  {
  }

  /** The warnings of the binder, as log entries. */
  function WarningLog(ws: seq<Warning>): seq<LogEntry>
  {
    seq(|ws|, i requires 0 <= i < |ws| => ParameterRejected(ws[i]))
  }

  /**
   * The callback arguments of a query-shaped task: the success flag, the
   * task's result value if it has one, and the caller's extra-argument array
   * as one final argument.
   */
  function Report(task: Task, success: bool, affected: Int32, rs: Table, args: seq<Variant>): seq<Variant>
  {
    match task
    case ExecuteUpdateQuery => [Bool(success), Int(affected), Arr(args)]
    case ExecutePreparedUpdateQuery => [Bool(success), Int(affected), Arr(args)]
    case ExecutePreparedSelectQuery => [Bool(success), Int(|rs.rows|), Arr(args)]
    case FetchArray => [Bool(success), ArrayRows(rs), Arr(args)]
    case FetchPreparedArray => [Bool(success), ArrayRows(rs), Arr(args)]
    case FetchDictionary => [Bool(success), DictRows(rs), Arr(args)]
    case FetchPreparedDictionary => [Bool(success), DictRows(rs), Arr(args)]
    case _ => [Bool(success), Arr(args)]
  }

  /** The array-form result as one host array of row arrays. */
  function ArrayRows(rs: Table): Variant
  {
    var t := ArrayTable(rs);
    Arr(seq(|t|, r requires 0 <= r < |t| => Arr(t[r])))
  }

  /** The dictionary-form result as one host array of row dictionaries. */
  function DictRows(rs: Table): Variant
  {
    var t := DictTable(rs);
    Arr(seq(|t|, r requires 0 <= r < |t| => Dict(t[r])))
  }

  /** `_connect_to_database`: always asks the driver; a new connection replaces the old one only on success. */
  function ConnectEffect(conn: Option<Connection>, props: Properties, reply: Reply,
                         target: Option<ObjectId>, callback: string, args: seq<Variant>): (e: Effect)
    ensures |e.calls| <= 1 && |e.requests| <= 1
  {
    match reply
    case Threw(e) =>
      Effect(conn, props, [Connect(props)], [SqlErrorLogged(e)], CallFunction(target, callback, [Bool(false), Arr(args)]))
    case Returned(_, _) =>
      Effect(Some(Connection(false, SchemaOf(props))), props, [Connect(props)], [],
             CallFunction(target, callback, [Bool(true), Arr(args)]))
  }

  /**
   * `_set_schema`: on a usable connection the option is stored first, then the
   * connection switches; a throw from the switch leaves the option stored.
   */
  function SchemaEffect(schema: string, conn: Option<Connection>, props: Properties, resp: DbResponse,
                        target: Option<ObjectId>, callback: string, args: seq<Variant>): (e: Effect)
    ensures |e.calls| <= 1 && |e.requests| <= 1
  {
    if !Usable(conn, resp) then
      Effect(conn, props, [], [], CallFunction(target, callback, [Bool(false), Arr(args)]))
    else
      var stored := props["schema" := Str(schema)];
      match resp.reply
      case Threw(e) =>
        Effect(conn, stored, [UseSchema(schema)], [SqlErrorLogged(e)], CallFunction(target, callback, [Bool(false), Arr(args)]))
      case Returned(_, _) =>
        Effect(Some(conn.value.(schema := schema)), stored, [UseSchema(schema)], [],
               CallFunction(target, callback, [Bool(true), Arr(args)]))
  }

  /**
   * The ten statement executors (`_execute_*`, `_fetch_*`): on a usable
   * connection, one plain or prepared call (prepared ones bind their
   * parameters first); failure of any kind reports `false` with empty results.
   */
  function StatementEffect(task: Task, query: string, params: seq<Variant>, conn: Option<Connection>,
                           props: Properties, resp: DbResponse,
                           target: Option<ObjectId>, callback: string, args: seq<Variant>): (e: Effect)
    ensures |e.calls| <= 1 && |e.requests| <= 1
  {
    if !Usable(conn, resp) then
      Effect(conn, props, [], [], CallFunction(target, callback, Report(task, false, 0, EmptyTable, args)))
    else
      var request := if IsPrepared(task) then Prepared(task, query, Bindings(params)) else Statement(task, query);
      var warnings := if IsPrepared(task) then WarningLog(Warnings(params)) else [];
      match resp.reply
      case Threw(e) =>
        Effect(conn, props, [request], warnings + [SqlErrorLogged(e)],
               CallFunction(target, callback, Report(task, false, 0, EmptyTable, args)))
      case Returned(n, rs) =>
        Effect(conn, props, [request], warnings, CallFunction(target, callback, Report(task, true, n, rs, args)))
  }

  /**
   * One dispatched item (`_thread`'s switch): an item whose payload size is
   * not its kind's arity runs nothing; otherwise the payload is unpacked in
   * the order the enqueue methods packed it and the kind's executor runs.
   */
  function Execute(item: QueueItem, conn: Option<Connection>, props: Properties, resp: DbResponse): (e: Effect)
    ensures |e.calls| <= 1 && |e.requests| <= 1
  {
    if !WellSized(item) then Effect(conn, props, [], [], [])
    else
      var target, callback, args := Target(item), CallbackName(item), ExtraArgs(item);
      match item.task
      case ConnectToDatabase => ConnectEffect(conn, props, resp.reply, target, callback, args)
      case SetSchema => SchemaEffect(Text(item), conn, props, resp, target, callback, args)
      case CloseConnection => Effect(Closed(conn), props, [], [], CallFunction(target, callback, [Arr(args)]))
      case _ => StatementEffect(item.task, Text(item), Params(item), conn, props, resp, target, callback, args)
  }

  /** Connecting always asks the driver once; success installs an open connection in the configured schema, a throw keeps the old one. */
  lemma ConnectOutcome(item: QueueItem, conn: Option<Connection>, props: Properties, resp: DbResponse)
    requires WellSized(item) && item.task == ConnectToDatabase
    ensures var e := Execute(item, conn, props, resp);
            && e.requests == [Connect(props)] && e.properties == props
            && (resp.reply.Returned? ==> e.connection == Some(Connection(false, SchemaOf(props))) && e.log == [])
            && (resp.reply.Threw? ==> e.connection == conn && e.log == [SqlErrorLogged(resp.reply.error)])
            && forall c :: c in e.calls ==> c.args[0] == Bool(resp.reply.Returned?)
  {
  }

  /**
   * Setting the schema on a usable connection stores the option whether or
   * not the switch then throws; the connection's schema changes only on success.
   */
  lemma SchemaOutcome(item: QueueItem, conn: Option<Connection>, props: Properties, resp: DbResponse)
    requires WellSized(item) && item.task == SetSchema
    ensures var e := Execute(item, conn, props, resp);
            var name := AsString(item.userData[0]);
            var ok := Usable(conn, resp) && resp.reply.Returned?;
            && (Usable(conn, resp) ==> e.properties == props["schema" := Str(name)] && e.requests == [UseSchema(name)])
            && (ok ==> e.connection == Some(conn.value.(schema := name)))
            && (!ok ==> e.connection == conn)
            && forall c :: c in e.calls ==> c.args[0] == Bool(ok)
  {
  }

  /** A plain select reports only its success flag; the prepared select also passes the row count. */
  lemma SelectReports(item: QueueItem, conn: Option<Connection>, props: Properties, resp: DbResponse)
    requires WellSized(item)
    requires item.task == ExecuteSelectQuery || item.task == ExecutePreparedSelectQuery
    ensures var e := Execute(item, conn, props, resp);
            var ok := Usable(conn, resp) && resp.reply.Returned?;
            var args := Arr(AsArray(item.userData[TargetIndex(item.task) + 2]));
            forall c :: c in e.calls ==>
              c.args == if item.task == ExecuteSelectQuery then [Bool(ok), args]
                        else [Bool(ok), Int(if ok then |resp.reply.resultSet.rows| else 0), args]
  {
  }

  /** A malformed item is dropped: nothing is called, logged or sent, and the state stays as it was. */
  lemma MalformedItemDropped(item: QueueItem, conn: Option<Connection>, props: Properties, resp: DbResponse)
    requires |item.userData| != Arity(item.task)
    ensures Execute(item, conn, props, resp) == Effect(conn, props, [], [], [])
  {
  }

  /**
   * A well-sized item fires its callback exactly when its target is non-null,
   * naming the payload's callback and passing the payload's extra arguments last.
   */
  lemma CallbackGuarded(item: QueueItem, conn: Option<Connection>, props: Properties, resp: DbResponse)
    requires WellSized(item)
    ensures var e := Execute(item, conn, props, resp);
            var k := TargetIndex(item.task);
            && (e.calls != [] <==> AsObject(item.userData[k]).Some?)
            && forall c :: c in e.calls ==>
                 && c.target == AsObject(item.userData[k]).value
                 && c.name == AsString(item.userData[k + 1])
                 && c.args != [] && c.args[|c.args| - 1] == Arr(AsArray(item.userData[k + 2]))
  {
    var u := item.userData;
    var k := TargetIndex(item.task);
    var target, callback, args := AsObject(u[k]), AsString(u[k + 1]), AsArray(u[k + 2]);
    var a := CallbackArgs(item, conn, resp);
    ExecuteCalls(item, conn, props, resp);
    assert a != [] && a[|a| - 1] == Arr(args);
  }

  /** The arguments a well-sized item's callback receives. */
  function CallbackArgs(item: QueueItem, conn: Option<Connection>, resp: DbResponse): (a: seq<Variant>)
    requires WellSized(item)
    ensures a != [] && a[|a| - 1] == Arr(AsArray(item.userData[TargetIndex(item.task) + 2]))
  {
    var args := AsArray(item.userData[TargetIndex(item.task) + 2]);
    var ok := Usable(conn, resp) && resp.reply.Returned?;
    match item.task
    case ConnectToDatabase => [Bool(resp.reply.Returned?), Arr(args)]
    case SetSchema => [Bool(ok), Arr(args)]
    case CloseConnection => [Arr(args)]
    case _ =>
      ReportEndsWithArgs(item.task, ok, if ok then resp.reply.affected else 0,
                         if ok then resp.reply.resultSet else EmptyTable, args);
      Report(item.task, ok, if ok then resp.reply.affected else 0, if ok then resp.reply.resultSet else EmptyTable, args)
  }

  /** Every executor calls back through `_call_function` with `CallbackArgs`. */
  lemma ExecuteCalls(item: QueueItem, conn: Option<Connection>, props: Properties, resp: DbResponse)
    requires WellSized(item)
    ensures var k := TargetIndex(item.task);
            Execute(item, conn, props, resp).calls
              == CallFunction(AsObject(item.userData[k]), AsString(item.userData[k + 1]), CallbackArgs(item, conn, resp))
  {
    var t := item.task;
    if t != ConnectToDatabase && t != SetSchema && t != CloseConnection {
      assert Execute(item, conn, props, resp)
          == StatementEffect(t, Text(item), Params(item), conn, props, resp, Target(item), CallbackName(item), ExtraArgs(item));
    }
  }

  /** Every report ends with the caller's extra-argument array. */
  lemma ReportEndsWithArgs(task: Task, success: bool, affected: Int32, rs: Table, args: seq<Variant>)
    ensures var r := Report(task, success, affected, rs, args);
            |r| >= 2 && r[0] == Bool(success) && r[|r| - 1] == Arr(args)
  {
  }

  /** Without a usable connection every kind but connect and close reports failure and touches nothing. */
  lemma UnusableConnectionFails(item: QueueItem, conn: Option<Connection>, props: Properties, resp: DbResponse)
    requires WellSized(item) && item.task != ConnectToDatabase && item.task != CloseConnection
    requires !Usable(conn, resp)
    ensures var e := Execute(item, conn, props, resp);
            && e.connection == conn && e.properties == props && e.requests == [] && e.log == []
            && forall c :: c in e.calls ==> c.args[0] == Bool(false)
  {
  }

  /** An update reports (false, 0) when the connection is unusable or the call throws, and (true, n) otherwise. */
  lemma UpdateOutcome(item: QueueItem, conn: Option<Connection>, props: Properties, resp: DbResponse)
    requires WellSized(item)
    requires item.task == ExecuteUpdateQuery || item.task == ExecutePreparedUpdateQuery
    ensures var e := Execute(item, conn, props, resp);
            var ok := Usable(conn, resp) && resp.reply.Returned?;
            forall c :: c in e.calls ==>
              c.args == [Bool(ok), Int(if ok then resp.reply.affected else 0), Arr(AsArray(item.userData[TargetIndex(item.task) + 2]))]
  {
  }

  /** On a usable connection a prepared kind sends one prepared call carrying exactly the binder's bindings, after logging its warnings. */
  lemma PreparedKindsBind(item: QueueItem, conn: Option<Connection>, props: Properties, resp: DbResponse)
    requires WellSized(item) && IsPrepared(item.task) && Usable(conn, resp)
    ensures var e := Execute(item, conn, props, resp);
            var params := AsArray(item.userData[1]);
            && e.requests == [Prepared(item.task, AsString(item.userData[0]), Bindings(params))]
            && e.log[..|Warnings(params)|] == WarningLog(Warnings(params))
  {
  }

  /** A fetch that succeeds hands the whole materialised result set to the callback. */
  lemma FetchDeliversRows(item: QueueItem, conn: Option<Connection>, props: Properties, resp: DbResponse)
    requires WellSized(item) && Usable(conn, resp) && resp.reply.Returned?
    requires item.task in {FetchArray, FetchPreparedArray, FetchDictionary, FetchPreparedDictionary}
    ensures var e := Execute(item, conn, props, resp);
            var rows := if item.task in {FetchArray, FetchPreparedArray} then ArrayRows(resp.reply.resultSet)
                        else DictRows(resp.reply.resultSet);
            forall c :: c in e.calls ==> c.args[0] == Bool(true) && c.args[1] == rows
  {
  }

  /** Only connect, set-schema and close can change the connection; only set-schema the options. */
  lemma StateChangesByKind(item: QueueItem, conn: Option<Connection>, props: Properties, resp: DbResponse)
    ensures var e := Execute(item, conn, props, resp);
            && (item.task !in {ConnectToDatabase, SetSchema, CloseConnection} ==> e.connection == conn)
            && (item.task != SetSchema ==> e.properties == props)
            && (WellSized(item) && item.task == CloseConnection ==> e.connection == Closed(conn) && e.requests == [])
  {
  }

  /**
   * What an enqueue method packs is what the worker's executor unpacks: the
   * callback goes to the packed target and method with the packed extra
   * arguments last, and the database is asked with the packed query, schema
   * or parameters.
   */
  lemma PackedItemExecutes(task: Task, text: string, params: seq<Variant>,
                           target: Option<ObjectId>, callback: string, args: seq<Variant>,
                           conn: Option<Connection>, props: Properties, resp: DbResponse)
    ensures var item := QueueItem(task, Payload(task, text, params, target, callback, args));
            var e := Execute(item, conn, props, resp);
            var a := CallbackArgs(item, conn, resp);
            && e.calls == CallFunction(target, callback, a)
            && a != [] && a[|a| - 1] == Arr(args)
            && (task == ConnectToDatabase ==> e.requests == [Connect(props)])
            && (task == SetSchema && Usable(conn, resp) ==> e.requests == [UseSchema(text)])
            && (task !in {ConnectToDatabase, SetSchema, CloseConnection} && Usable(conn, resp) ==>
                  e.requests == [if IsPrepared(task) then Prepared(task, text, Bindings(params)) else Statement(task, text)])
  {
    var item := QueueItem(task, Payload(task, text, params, target, callback, args));
    ExecuteCalls(item, conn, props, resp);
  }

  /** Once a close item has run, every statement kind and set-schema fail until the next connect. */
  lemma ClosedConnectionRefuses(close: QueueItem, item: QueueItem, conn: Option<Connection>, props: Properties,
                                resp: DbResponse, next: DbResponse)
    requires WellSized(close) && close.task == CloseConnection
    requires WellSized(item) && item.task != ConnectToDatabase && item.task != CloseConnection
    ensures var c := Execute(close, conn, props, resp);
            var e := Execute(item, c.connection, c.properties, next);
            && e.requests == [] && e.log == [] && e.connection == c.connection
            && forall call :: call in e.calls ==> call.args[0] == Bool(false)
  {
    var c := Execute(close, conn, props, resp);
    assert c.connection == Closed(conn);
    assert !Usable(c.connection, next);
    UnusableConnectionFails(item, c.connection, c.properties, next);
  }

  /**
   * The worker's run over `items`, in order: item j is executed on the state
   * the items before it left, answered by `db(j)`; the effect collects their
   * database calls, log lines and callbacks in that order.
   */
  function Serve(items: seq<QueueItem>, conn: Option<Connection>, props: Properties, db: nat -> DbResponse): (r: Effect)
    ensures |r.calls| <= |items| && |r.requests| <= |items|
    decreases |items|
  {
    if items == [] then Effect(conn, props, [], [], [])
    else
      var p := Serve(items[..|items| - 1], conn, props, db);
      var e := Execute(items[|items| - 1], p.connection, p.properties, db(|items| - 1));
      Effect(e.connection, e.properties, p.requests + e.requests, p.log + e.log, p.calls + e.calls)
  }

  /** Serving one more item is serving the others and then executing it on the state they left. */
  lemma ServeSnoc(items: seq<QueueItem>, x: QueueItem, conn: Option<Connection>, props: Properties, db: nat -> DbResponse)
    ensures var p := Serve(items, conn, props, db);
            var e := Execute(x, p.connection, p.properties, db(|items|));
            Serve(items + [x], conn, props, db)
              == Effect(e.connection, e.properties, p.requests + e.requests, p.log + e.log, p.calls + e.calls)
  {
    assert (items + [x])[..|items|] == items;
  }

  /**
   * Output that extends `calls0`, `log0`, `requests0` by serving `done`,
   * extended by executing `x` next, is the output of serving `done + [x]`.
   */
  lemma ServeExtends(done: seq<QueueItem>, x: QueueItem, conn0: Option<Connection>, props0: Properties,
                     db: nat -> DbResponse, calls0: seq<Call>, log0: seq<LogEntry>, requests0: seq<Request>,
                     calls1: seq<Call>, log1: seq<LogEntry>, requests1: seq<Request>)
    requires var p := Serve(done, conn0, props0, db);
             calls1 == calls0 + p.calls && log1 == log0 + p.log && requests1 == requests0 + p.requests
    ensures var p := Serve(done, conn0, props0, db);
            var e := Execute(x, p.connection, p.properties, db(|done|));
            var r := Serve(done + [x], conn0, props0, db);
            && r.connection == e.connection && r.properties == e.properties
            && calls1 + e.calls == calls0 + r.calls && log1 + e.log == log0 + r.log
            && requests1 + e.requests == requests0 + r.requests
  {
    var p := Serve(done, conn0, props0, db);
    var e := Execute(x, p.connection, p.properties, db(|done|));
    ServeSnoc(done, x, conn0, props0, db);
    var r := Serve(done + [x], conn0, props0, db);
    assert r.calls == p.calls + e.calls && r.log == p.log + e.log && r.requests == p.requests + e.requests;
    SeqAssoc(calls0, p.calls, e.calls);
    SeqAssoc(log0, p.log, e.log);
    SeqAssoc(requests0, p.requests, e.requests);
  }

  /** A suffix of a queue of well-sized items holds only well-sized items. */
  lemma SuffixWellSized(q: seq<QueueItem>, n: nat)
    requires n <= |q| && forall k :: 0 <= k < |q| ==> WellSized(q[k])
    ensures forall k :: 0 <= k < |q[n..]| ==> WellSized(q[n..][k])
  {
  }

  /** Concatenation regrouped; stated for the solver, which does not find the regrouping in `ServeExtends` unaided. */
  lemma SeqAssoc<T>(a: seq<T>, b: seq<T>, c: seq<T>)
    ensures a + b + c == a + (b + c)
  {
  }

  /** Items that are well-sized and carry a target each fire exactly one callback, in queue order. */
  lemma {:induction false} ServeCallbacksInOrder(items: seq<QueueItem>, conn: Option<Connection>, props: Properties,
                                                 db: nat -> DbResponse)
    requires forall j :: 0 <= j < |items| ==> WellSized(items[j]) && Target(items[j]).Some?
    ensures var r := Serve(items, conn, props, db);
            && |r.calls| == |items|
            && forall j :: 0 <= j < |items| ==>
                 r.calls[j].target == Target(items[j]).value && r.calls[j].name == CallbackName(items[j])
    decreases |items|
  {
    if items != [] {
      var n := |items| - 1;
      var init := items[..n];
      assert items == init + [items[n]];
      ServeCallbacksInOrder(init, conn, props, db);
      var p := Serve(init, conn, props, db);
      ServeSnoc(init, items[n], conn, props, db);
      CallbackGuarded(items[n], p.connection, p.properties, db(n));
      var e := Execute(items[n], p.connection, p.properties, db(n));
      assert |e.calls| == 1 && e.calls[0] in e.calls;
      var r := Serve(items, conn, props, db);
      assert r.calls == p.calls + e.calls;
      assert forall j :: 0 <= j < n ==> r.calls[j] == p.calls[j] && items[j] == init[j];
    }
  }

  /** The bridge object: its connection, its options and its work queue with the wake counter. */
  class MySql {
    var queue: seq<QueueItem>
    var wakes: nat
    var threadActive: bool
    var connection: Option<Connection>
    var properties: Properties
    /** Callback invocations made so far, in order. */
    var calls: seq<Call>
    /** Error and warning output so far. */
    var log: seq<LogEntry>
    /** Database calls made so far. */
    var requests: seq<Request>
    /** Every item ever queued, and those the worker has taken, in order. */
    ghost var submitted: seq<QueueItem>
    ghost var dispatched: seq<QueueItem>

    /** The queue is first-in first-out: what was taken, followed by what waits, is what was submitted. */
    ghost predicate Valid()
      reads this
    {
      submitted == dispatched + queue
    }

    /** Every waiting item would be dispatched rather than dropped. */
    ghost predicate WellSizedQueue()
      reads this
    {
      forall k :: 0 <= k < |queue| ==> WellSized(queue[k])
    }

    /** One pending wake for every waiting item. */
    ghost predicate WakesMatchQueue()
      reads this
    {
      wakes == |queue|
    }

    /** `item` went on the tail with one wake posted, and nothing else changed. */
    twostate predicate Enqueued(item: QueueItem)
      reads this
    {
      && queue == old(queue) + [item] && wakes == old(wakes) + 1
      && submitted == old(submitted) + [item] && dispatched == old(dispatched)
      && connection == old(connection) && properties == old(properties)
      && calls == old(calls) && log == old(log) && requests == old(requests)
    }

    /** The constructor: no connection, an empty queue, the worker not started, and automatic reconnection requested. */
    constructor ()
      ensures Valid() && WellSizedQueue() && WakesMatchQueue()
      ensures queue == [] && wakes == 0 && !threadActive && connection == None
      ensures properties == map["OPT_RECONNECT" := Bool(true)]
      ensures calls == [] && log == [] && requests == [] && submitted == [] && dispatched == []
    {
      queue, wakes, threadActive, connection := [], 0, false, None;
      properties := map["OPT_RECONNECT" := Bool(true)];
      calls, log, requests := [], [], [];
      submitted, dispatched := [], [];
    }

    /** `set_credentials`: stores host, port, user name and password; other options are kept. Not queued. */
    method SetCredentials(host: string, username: string, password: string, port: Int32)
      requires Valid()
      modifies this
      ensures Valid()
      ensures properties == old(properties)["hostName" := Str(host)]["port" := Int(port)]
                                           ["userName" := Str(username)]["password" := Str(password)]
      ensures queue == old(queue) && wakes == old(wakes) && threadActive == old(threadActive)
      ensures connection == old(connection) && calls == old(calls) && log == old(log) && requests == old(requests)
      ensures submitted == old(submitted) && dispatched == old(dispatched)
    {
      properties := properties["hostName" := Str(host)];
      properties := properties["port" := Int(port)];
      properties := properties["userName" := Str(username)];
      properties := properties["password" := Str(password)];
    }

    /** `QUEUE_TASK` followed by the unlock and the semaphore post. */
    method QueueTask(task: Task, userData: seq<Variant>)
      requires Valid()
      modifies this
      ensures Valid() && Enqueued(QueueItem(task, userData)) && threadActive == old(threadActive)
      ensures WellSizedQueue() <==> old(WellSizedQueue()) && WellSized(QueueItem(task, userData))
    {
      var item := QueueItem(task, userData);
      queue := queue + [item];
      submitted := submitted + [item];
      wakes := wakes + 1;
      assert queue[|queue| - 1] == item;
      assert forall k :: 0 <= k < |queue| - 1 ==> queue[k] == old(queue)[k];
    }

    /** `connect_to_database`: starts the worker if it is not running, then queues the connect task. */
    method ConnectToDatabase(target: Option<ObjectId>, callback: string, args: seq<Variant>)
      requires Valid()
      modifies this
      ensures Valid() && threadActive
      ensures Enqueued(QueueItem(Task.ConnectToDatabase, Payload(Task.ConnectToDatabase, "", [], target, callback, args)))
      ensures WellSizedQueue() == old(WellSizedQueue())
    {
      threadActive := true;
      QueueTask(Task.ConnectToDatabase, Payload(Task.ConnectToDatabase, "", [], target, callback, args));
    }

    /** `set_schema`: queues the task with its payload. */
    method SetSchema(schema: string, target: Option<ObjectId>, callback: string, args: seq<Variant>)
      requires Valid()
      modifies this
      ensures Valid() && threadActive == old(threadActive)
      ensures Enqueued(QueueItem(Task.SetSchema, Payload(Task.SetSchema, schema, [], target, callback, args)))
      ensures WellSizedQueue() == old(WellSizedQueue())
    {
      QueueTask(Task.SetSchema, Payload(Task.SetSchema, schema, [], target, callback, args));
    }

    /** `execute_query`: queues the task with its payload. */
    method ExecuteQuery(query: string, target: Option<ObjectId>, callback: string, args: seq<Variant>)
      requires Valid()
      modifies this
      ensures Valid() && threadActive == old(threadActive)
      ensures Enqueued(QueueItem(Task.ExecuteQuery, Payload(Task.ExecuteQuery, query, [], target, callback, args)))
      ensures WellSizedQueue() == old(WellSizedQueue())
    {
      QueueTask(Task.ExecuteQuery, Payload(Task.ExecuteQuery, query, [], target, callback, args));
    }

    /** `execute_prepared_query`: queues the task with its payload. */
    method ExecutePreparedQuery(query: string, params: seq<Variant>, target: Option<ObjectId>, callback: string, args: seq<Variant>)
      requires Valid()
      modifies this
      ensures Valid() && threadActive == old(threadActive)
      ensures Enqueued(QueueItem(Task.ExecutePreparedQuery, Payload(Task.ExecutePreparedQuery, query, params, target, callback, args)))
      ensures WellSizedQueue() == old(WellSizedQueue())
    {
      QueueTask(Task.ExecutePreparedQuery, Payload(Task.ExecutePreparedQuery, query, params, target, callback, args));
    }

    /** `execute_update_query`: queues the task with its payload. */
    method ExecuteUpdateQuery(query: string, target: Option<ObjectId>, callback: string, args: seq<Variant>)
      requires Valid()
      modifies this
      ensures Valid() && threadActive == old(threadActive)
      ensures Enqueued(QueueItem(Task.ExecuteUpdateQuery, Payload(Task.ExecuteUpdateQuery, query, [], target, callback, args)))
      ensures WellSizedQueue() == old(WellSizedQueue())
    {
      QueueTask(Task.ExecuteUpdateQuery, Payload(Task.ExecuteUpdateQuery, query, [], target, callback, args));
    }

    /** `execute_prepared_update_query`: queues the task with its payload. */
    method ExecutePreparedUpdateQuery(query: string, params: seq<Variant>, target: Option<ObjectId>, callback: string, args: seq<Variant>)
      requires Valid()
      modifies this
      ensures Valid() && threadActive == old(threadActive)
      ensures Enqueued(QueueItem(Task.ExecutePreparedUpdateQuery, Payload(Task.ExecutePreparedUpdateQuery, query, params, target, callback, args)))
      ensures WellSizedQueue() == old(WellSizedQueue())
    {
      QueueTask(Task.ExecutePreparedUpdateQuery, Payload(Task.ExecutePreparedUpdateQuery, query, params, target, callback, args));
    }

    /** `execute_select_query`: queues the task with its payload. */
    method ExecuteSelectQuery(query: string, target: Option<ObjectId>, callback: string, args: seq<Variant>)
      requires Valid()
      modifies this
      ensures Valid() && threadActive == old(threadActive)
      ensures Enqueued(QueueItem(Task.ExecuteSelectQuery, Payload(Task.ExecuteSelectQuery, query, [], target, callback, args)))
      ensures WellSizedQueue() == old(WellSizedQueue())
    {
      QueueTask(Task.ExecuteSelectQuery, Payload(Task.ExecuteSelectQuery, query, [], target, callback, args));
    }

    /** `execute_prepared_select_query`: queues the task with its payload. */
    method ExecutePreparedSelectQuery(query: string, params: seq<Variant>, target: Option<ObjectId>, callback: string, args: seq<Variant>)
      requires Valid()
      modifies this
      ensures Valid() && threadActive == old(threadActive)
      ensures Enqueued(QueueItem(Task.ExecutePreparedSelectQuery, Payload(Task.ExecutePreparedSelectQuery, query, params, target, callback, args)))
      ensures WellSizedQueue() == old(WellSizedQueue())
    {
      QueueTask(Task.ExecutePreparedSelectQuery, Payload(Task.ExecutePreparedSelectQuery, query, params, target, callback, args));
    }

    /** `fetch_array`: queues the task with its payload. */
    method FetchArray(query: string, target: Option<ObjectId>, callback: string, args: seq<Variant>)
      requires Valid()
      modifies this
      ensures Valid() && threadActive == old(threadActive)
      ensures Enqueued(QueueItem(Task.FetchArray, Payload(Task.FetchArray, query, [], target, callback, args)))
      ensures WellSizedQueue() == old(WellSizedQueue())
    {
      QueueTask(Task.FetchArray, Payload(Task.FetchArray, query, [], target, callback, args));
    }

    /** `fetch_prepared_array`: queues the task with its payload. */
    method FetchPreparedArray(query: string, params: seq<Variant>, target: Option<ObjectId>, callback: string, args: seq<Variant>)
      requires Valid()
      modifies this
      ensures Valid() && threadActive == old(threadActive)
      ensures Enqueued(QueueItem(Task.FetchPreparedArray, Payload(Task.FetchPreparedArray, query, params, target, callback, args)))
      ensures WellSizedQueue() == old(WellSizedQueue())
    {
      QueueTask(Task.FetchPreparedArray, Payload(Task.FetchPreparedArray, query, params, target, callback, args));
    }

    /** `fetch_dictionary`: queues the task with its payload. */
    method FetchDictionary(query: string, target: Option<ObjectId>, callback: string, args: seq<Variant>)
      requires Valid()
      modifies this
      ensures Valid() && threadActive == old(threadActive)
      ensures Enqueued(QueueItem(Task.FetchDictionary, Payload(Task.FetchDictionary, query, [], target, callback, args)))
      ensures WellSizedQueue() == old(WellSizedQueue())
    {
      QueueTask(Task.FetchDictionary, Payload(Task.FetchDictionary, query, [], target, callback, args));
    }

    /** `fetch_prepared_dictionary`: queues the task with its payload. */
    method FetchPreparedDictionary(query: string, params: seq<Variant>, target: Option<ObjectId>, callback: string, args: seq<Variant>)
      requires Valid()
      modifies this
      ensures Valid() && threadActive == old(threadActive)
      ensures Enqueued(QueueItem(Task.FetchPreparedDictionary, Payload(Task.FetchPreparedDictionary, query, params, target, callback, args)))
      ensures WellSizedQueue() == old(WellSizedQueue())
    {
      QueueTask(Task.FetchPreparedDictionary, Payload(Task.FetchPreparedDictionary, query, params, target, callback, args));
    }

    /** `close_connection`: queues the close task with its payload. */
    method CloseConnection(target: Option<ObjectId>, callback: string, args: seq<Variant>)
      requires Valid()
      modifies this
      ensures Valid() && threadActive == old(threadActive)
      ensures Enqueued(QueueItem(Task.CloseConnection, Payload(Task.CloseConnection, "", [], target, callback, args)))
      ensures WellSizedQueue() == old(WellSizedQueue())
    {
      QueueTask(Task.CloseConnection, Payload(Task.CloseConnection, "", [], target, callback, args));
    }

    /** The state is `e` applied to a start with output `calls0`, `log0` and `requests0`. */
    ghost predicate Mirrors(e: Effect, calls0: seq<Call>, log0: seq<LogEntry>, requests0: seq<Request>)
      reads this
    {
      && connection == e.connection && properties == e.properties
      && calls == calls0 + e.calls && log == log0 + e.log && requests == requests0 + e.requests
    }

    /** The state is `e` applied to the old state: new connection and options, and e's output appended. */
    twostate predicate Applied(e: Effect)
      reads this
    {
      && connection == e.connection && properties == e.properties
      && calls == old(calls) + e.calls && log == old(log) + e.log && requests == old(requests) + e.requests
    }

    /**
     * One iteration of `_thread`'s loop after a wake: the head item, if any,
     * leaves the queue and is executed with the oracle's answer `resp`; on an
     * empty queue the wake is consumed and nothing else changes.
     */
    method Step(resp: DbResponse)
      requires Valid() && threadActive && wakes > 0
      modifies this
      ensures Valid() && threadActive && wakes == old(wakes) - 1 && submitted == old(submitted)
      ensures old(queue) == [] ==>
                queue == [] && dispatched == old(dispatched) && Applied(Effect(old(connection), old(properties), [], [], []))
      ensures old(queue) != [] ==>
                && queue == old(queue)[1..] && dispatched == old(dispatched) + [old(queue)[0]]
                && Applied(Execute(old(queue)[0], old(connection), old(properties), resp))
      ensures old(WellSizedQueue()) ==> WellSizedQueue()
      ensures old(WakesMatchQueue()) ==> WakesMatchQueue()
    {
      wakes := wakes - 1;
      if queue != [] {
        var item := Pop();
        Apply(Execute(item, connection, properties, resp));
      }
    }

    /** Takes the head item off the queue, recording it as dispatched. */
    method Pop() returns (item: QueueItem)
      requires Valid() && queue != []
      modifies this`queue, this`dispatched
      ensures Valid() && item == old(queue)[0]
      ensures queue == old(queue)[1..] && dispatched == old(dispatched) + [item]
      ensures old(WellSizedQueue()) ==> WellSizedQueue()
    {
      item := queue[0];
      queue := queue[1..];
      dispatched := dispatched + [item];
    }

    /** Applies one executor's effect: new connection and options, its output appended. */
    method Apply(e: Effect)
      modifies this`connection, this`properties, this`calls, this`log, this`requests
      ensures Applied(e)
    {
      connection, properties := e.connection, e.properties;
      calls, log, requests := calls + e.calls, log + e.log, requests + e.requests;
    }

    /** `Step` on an empty queue: the wake is consumed and nothing else changes. */
    method StepIdle(resp: DbResponse)
      requires Valid() && threadActive && wakes > 0 && queue == []
      modifies this
      ensures Valid() && threadActive && wakes == old(wakes) - 1 && queue == []
      ensures submitted == old(submitted) && dispatched == old(dispatched)
      ensures connection == old(connection) && properties == old(properties)
      ensures calls == old(calls) && log == old(log) && requests == old(requests)
    {
      Step(resp);
    }

    /** `Step` on a non-empty queue, stated as serving the head after the items `done` already served. */
    method StepServed(db: nat -> DbResponse, i: nat, ghost done: seq<QueueItem>, ghost conn0: Option<Connection>,
                      ghost props0: Properties, ghost calls0: seq<Call>, ghost log0: seq<LogEntry>,
                      ghost requests0: seq<Request>)
      requires Valid() && threadActive && wakes > 0 && queue != [] && |done| == i
      requires Mirrors(Serve(done, conn0, props0, db), calls0, log0, requests0)
      modifies this
      ensures Valid() && threadActive && wakes == old(wakes) - 1 && submitted == old(submitted)
      ensures queue == old(queue)[1..] && dispatched == old(dispatched) + [old(queue)[0]]
      ensures Mirrors(Serve(done + [old(queue)[0]], conn0, props0, db), calls0, log0, requests0)
      ensures old(WellSizedQueue()) ==> WellSizedQueue()
      ensures old(WakesMatchQueue()) ==> WakesMatchQueue()
    {
      ServeExtends(done, queue[0], conn0, props0, db, calls0, log0, requests0, calls, log, requests);
      Step(db(i));
    }

    /**
     * After `i` iterations of `Run` from a state with queue `q0`, `wakes0`
     * wakes, and connection, options and output `conn0` .. `requests0`:
     * the first `served` items are gone, in order, and the state is what
     * serving them produces.
     */
    ghost predicate Progress(db: nat -> DbResponse, q0: seq<QueueItem>, d0: seq<QueueItem>, s0: seq<QueueItem>,
                             wakes0: nat, conn0: Option<Connection>, props0: Properties, calls0: seq<Call>,
                             log0: seq<LogEntry>, requests0: seq<Request>, i: nat, served: nat)
      reads this
    {
      && Valid() && threadActive && submitted == s0
      && wakes + i == wakes0
      && served == (if i < |q0| then i else |q0|)
      && queue == q0[served..] && dispatched == d0 + q0[..served]
      && Mirrors(Serve(q0[..served], conn0, props0, db), calls0, log0, requests0)
    }

    /** One iteration of `Run`: the i-th wake, answered by `db(i)`, serves the head if there is one. */
    method Turn(db: nat -> DbResponse, i: nat, served: nat, ghost q0: seq<QueueItem>, ghost d0: seq<QueueItem>,
                ghost s0: seq<QueueItem>, ghost wakes0: nat, ghost conn0: Option<Connection>, ghost props0: Properties,
                ghost calls0: seq<Call>, ghost log0: seq<LogEntry>, ghost requests0: seq<Request>)
        returns (served': nat)
      requires wakes > 0 && Progress(db, q0, d0, s0, wakes0, conn0, props0, calls0, log0, requests0, i, served)
      modifies this
      ensures Progress(db, q0, d0, s0, wakes0, conn0, props0, calls0, log0, requests0, i + 1, served')
    {
      served' := served;
      if queue != [] {
        assert q0[..served + 1] == q0[..served] + [queue[0]];
        StepServed(db, i, q0[..served], conn0, props0, calls0, log0, requests0);
        served' := served + 1;
      } else {
        StepIdle(db(i));
      }
    }

    /**
     * `_thread`, run until it would block: one iteration per pending wake,
     * the i-th iteration answered by `db(i)`. Items leave in insertion order,
     * each fires at most one callback.
     */
    method Run(db: nat -> DbResponse) returns (served: nat)
      requires Valid() && threadActive
      modifies this
      ensures Valid() && threadActive && wakes == 0 && submitted == old(submitted)
      ensures served == if old(wakes) < |old(queue)| then old(wakes) else |old(queue)|
      ensures queue == old(queue)[served..]
      ensures dispatched == old(dispatched) + old(queue)[..served]
      ensures var r := Serve(old(queue)[..served], old(connection), old(properties), db);
              && connection == r.connection && properties == r.properties
              && calls == old(calls) + r.calls && log == old(log) + r.log && requests == old(requests) + r.requests
      ensures old(calls) <= calls && |calls| <= |old(calls)| + served
      ensures old(WellSizedQueue()) ==> WellSizedQueue()
      ensures old(WakesMatchQueue()) ==> queue == [] && served == |old(queue)|
    {
      served := 0;
      var i := 0;
      assert old(queue)[..0] == [] && old(queue)[0..] == old(queue);
      while wakes > 0
        invariant Progress(db, old(queue), old(dispatched), old(submitted), old(wakes), old(connection),
                           old(properties), old(calls), old(log), old(requests), i, served)
        decreases wakes
      {
        served := Turn(db, i, served, old(queue), old(dispatched), old(submitted), old(wakes), old(connection),
                       old(properties), old(calls), old(log), old(requests));
        i := i + 1;
      }
      ghost var done := old(queue)[..served];
      ghost var r := Serve(done, old(connection), old(properties), db);
      assert calls == old(calls) + r.calls && |r.calls| <= served;
      if old(WellSizedQueue()) {
        SuffixWellSized(old(queue), served);
      }
    }
  }
}
