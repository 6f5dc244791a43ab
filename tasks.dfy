/**
 * The declarations of the database bridge's header: the closed enumeration of
 * operation kinds, the queued work item and the guarded callback invocation.
 */
module Tasks {

  import opened Wrappers
  import opened Variants

  /** The thirteen kinds of queued operation, in declaration order (numbers 0 to 12). */
  datatype Task =
    | ConnectToDatabase
    | SetSchema
    | ExecuteQuery
    | ExecutePreparedQuery
    | ExecuteUpdateQuery
    | ExecutePreparedUpdateQuery
    | ExecuteSelectQuery
    | ExecutePreparedSelectQuery
    | FetchArray
    | FetchPreparedArray
    | FetchDictionary
    | FetchPreparedDictionary
    | CloseConnection

  /** The enumerator value the header gives each kind. */
  function Ordinal(t: Task): nat
  {
    match t
    case ConnectToDatabase => 0
    case SetSchema => 1
    case ExecuteQuery => 2
    case ExecutePreparedQuery => 3
    case ExecuteUpdateQuery => 4
    case ExecutePreparedUpdateQuery => 5
    case ExecuteSelectQuery => 6
    case ExecutePreparedSelectQuery => 7
    case FetchArray => 8
    case FetchPreparedArray => 9
    case FetchDictionary => 10
    case FetchPreparedDictionary => 11
    case CloseConnection => 12
  }

  /** The kind with enumerator value `n`, if there is one. */
  function FromOrdinal(n: int): (t: Option<Task>)
    ensures t.Some? <==> 0 <= n <= 12
  {
    if n == 0 then Some(ConnectToDatabase)
    else if n == 1 then Some(SetSchema)
    else if n == 2 then Some(ExecuteQuery)
    else if n == 3 then Some(ExecutePreparedQuery)
    else if n == 4 then Some(ExecuteUpdateQuery)
    else if n == 5 then Some(ExecutePreparedUpdateQuery)
    else if n == 6 then Some(ExecuteSelectQuery)
    else if n == 7 then Some(ExecutePreparedSelectQuery)
    else if n == 8 then Some(FetchArray)
    else if n == 9 then Some(FetchPreparedArray)
    else if n == 10 then Some(FetchDictionary)
    else if n == 11 then Some(FetchPreparedDictionary)
    else if n == 12 then Some(CloseConnection)
    else None
  }

  /** The enumeration is closed: the numbers 0 to 12 and the kinds are in one-to-one correspondence. */
  lemma TaskNumbering()
    ensures forall t: Task :: Ordinal(t) <= 12 && FromOrdinal(Ordinal(t)) == Some(t)
    ensures forall n: int :: 0 <= n <= 12 ==> Ordinal(FromOrdinal(n).value) == n
    ensures forall t1: Task, t2: Task :: Ordinal(t1) == Ordinal(t2) ==> t1 == t2
  {
    forall t: Task ensures Ordinal(t) <= 12 && FromOrdinal(Ordinal(t)) == Some(t) {
      match t
      case ConnectToDatabase =>
      case SetSchema =>
      case ExecuteQuery =>
      case ExecutePreparedQuery =>
      case ExecuteUpdateQuery =>
      case ExecutePreparedUpdateQuery =>
      case ExecuteSelectQuery =>
      case ExecutePreparedSelectQuery =>
      case FetchArray =>
      case FetchPreparedArray =>
      case FetchDictionary =>
      case FetchPreparedDictionary =>
      case CloseConnection =>
    }
    forall t1: Task, t2: Task | Ordinal(t1) == Ordinal(t2) ensures t1 == t2 {
      assert FromOrdinal(Ordinal(t1)) == Some(t1) && FromOrdinal(Ordinal(t2)) == Some(t2);
    }
  }

  /** Kinds whose payload also carries the statement's parameter array. */
  predicate IsPrepared(t: Task)
  {
    t in {ExecutePreparedQuery, ExecutePreparedUpdateQuery, ExecutePreparedSelectQuery,
          FetchPreparedArray, FetchPreparedDictionary}
  }

  /**
   * The payload size the worker accepts for each kind: target, callback and
   * extra arguments, plus the query (or schema) and, for prepared kinds, the
   * parameters.
   */
  function Arity(t: Task): (n: nat)
    ensures 3 <= n <= 5
    ensures n == 3 <==> t == ConnectToDatabase || t == CloseConnection
    ensures n == 5 <==> IsPrepared(t)
  {
    if t == ConnectToDatabase || t == CloseConnection then 3
    else if IsPrepared(t) then 5
    else 4
  }

  /** Where the callback target sits in a payload of the right size; callback name and extra arguments follow it. */
  function TargetIndex(t: Task): nat
  {
    Arity(t) - 3
  }

  /** One element of the work queue: exactly one kind and one payload array. */
  datatype QueueItem = QueueItem(task: Task, userData: seq<Variant>)

  /** An item the worker will dispatch rather than drop. */
  predicate WellSized(item: QueueItem)
  {
    |item.userData| == Arity(item.task)
  }

  /**
   * The payload the enqueue methods pack for kind `t`: the query (or schema)
   * unless the kind is connect or close, then the parameter array for the
   * prepared kinds, then target, callback name and extra-argument array.
   * The worker's unpacking reads every packed value back unchanged.
   */
  function Payload(t: Task, text: string, params: seq<Variant>,
                   target: Option<ObjectId>, callback: string, args: seq<Variant>): (u: seq<Variant>)
    ensures WellSized(QueueItem(t, u))
    ensures AsObject(u[TargetIndex(t)]) == target
    ensures AsString(u[TargetIndex(t) + 1]) == callback
    ensures AsArray(u[TargetIndex(t) + 2]) == args
    ensures TargetIndex(t) > 0 ==> AsString(u[0]) == text
    ensures IsPrepared(t) ==> AsArray(u[1]) == params
  {
    var tail := [ObjectValue(target), Str(callback), Arr(args)];
    if t == ConnectToDatabase || t == CloseConnection then tail
    else if IsPrepared(t) then [Str(text), Arr(params)] + tail
    else [Str(text)] + tail
  }

  /** The callback target a well-sized item carries. */
  function Target(item: QueueItem): Option<ObjectId>
    requires WellSized(item)
  {
    AsObject(item.userData[TargetIndex(item.task)])
  }

  /** The callback method name a well-sized item carries. */
  function CallbackName(item: QueueItem): string
    requires WellSized(item)
  {
    AsString(item.userData[TargetIndex(item.task) + 1])
  }

  /** The extra-argument array a well-sized item carries. */
  function ExtraArgs(item: QueueItem): seq<Variant>
    requires WellSized(item)
  {
    AsArray(item.userData[TargetIndex(item.task) + 2])
  }

  /** The query or schema a well-sized item of any kind but connect and close carries first. */
  function Text(item: QueueItem): string
    requires WellSized(item) && item.task != ConnectToDatabase && item.task != CloseConnection
  {
    AsString(item.userData[0])
  }

  /** The statement parameters of a well-sized item: its second entry for prepared kinds, none otherwise. */
  function Params(item: QueueItem): seq<Variant>
    requires WellSized(item)
  {
    if IsPrepared(item.task) then AsArray(item.userData[1]) else []
  }

  /** One invocation of a named method on a host object with positional arguments. */
  datatype Call = Call(target: ObjectId, name: string, args: seq<Variant>)

  /**
   * The guarded callback: the call happens only when the target is non-null,
   * with the arguments forwarded in order. The result lists the calls made.
   */
  function CallFunction(target: Option<ObjectId>, callback: string, args: seq<Variant>): (calls: seq<Call>)
    ensures |calls| <= 1
    ensures calls != [] <==> target.Some?
    ensures forall c :: c in calls ==> c.target == target.value && c.name == callback && c.args == args
  {
    match target
    case None => []
    case Some(id) => [Call(id, callback, args)]
  }
}
