/**
 * `JdbcProxyFactory` (the `net.gquintana` one, on Codahale timers): which
 * life timer each `wrap*` call starts, what its handler is built from, and
 * which interface a wrapped result set is proxied as.
 *
 * A proxy is modelled by its handler record; the reflective proxy itself
 * and the handler classes are not part of this model.  The naming strategy
 * of this package, which both names and starts timers, is modelled by what
 * the factory can observe of it: the log of timer starts it was asked for.
 */
module JdbcProxy {
  import opened Wrappers

  // ---------------------------------------------------------------------
  // Result set classification
  // ---------------------------------------------------------------------

  /** The result-set interfaces `getResultSetType` distinguishes. */
  datatype JdbcInterface =
    | ResultSet | RowSet | CachedRowSet | WebRowSet | FilteredRowSet | JoinRowSet | JdbcRowSet

  /** Every interface that `i` is, including `i`, under javax.sql's hierarchy. */
  function Supertypes(i: JdbcInterface): (sup: set<JdbcInterface>) {
    match i
    case ResultSet => {ResultSet}
    case RowSet => {RowSet, ResultSet}
    case CachedRowSet => {CachedRowSet, RowSet, ResultSet}
    case JdbcRowSet => {JdbcRowSet, RowSet, ResultSet}
    case WebRowSet => {WebRowSet, CachedRowSet, RowSet, ResultSet}
    case FilteredRowSet => {FilteredRowSet, WebRowSet, CachedRowSet, RowSet, ResultSet}
    case JoinRowSet => {JoinRowSet, WebRowSet, CachedRowSet, RowSet, ResultSet}
  }

  /**
   * The set of interfaces an object passes `instanceof` for: a result set is
   * a `ResultSet`, and whatever it implements it implements with all supertypes.
   */
  ghost predicate InstanceofClosed(implemented: set<JdbcInterface>) {
    && ResultSet in implemented
    && forall i :: i in implemented ==> Supertypes(i) <= implemented
  }

  /**
   * `getResultSetType`: the interface the result set is proxied as.  It is
   * one the result set implements, and no interface it implements is a
   * strictly more specific one.
   */
  function ResultSetType(implemented: set<JdbcInterface>): (r: JdbcInterface)
    requires InstanceofClosed(implemented)
    ensures r in implemented
    ensures forall i :: i in implemented && i != r ==> r !in Supertypes(i)
  {
    if RowSet in implemented then
      if CachedRowSet in implemented then
        if WebRowSet in implemented then
          if FilteredRowSet in implemented then FilteredRowSet
          else if JoinRowSet in implemented then JoinRowSet
          else WebRowSet
        else CachedRowSet
      else if JdbcRowSet in implemented then JdbcRowSet
      else RowSet
    else ResultSet
  }

  /** The first interface of `order` that is implemented, if any. */
  function FirstImplemented(order: seq<JdbcInterface>, implemented: set<JdbcInterface>): (r: Option<JdbcInterface>)
    ensures r.Some? ==> r.value in implemented
    ensures r.Some? ==> exists k :: 0 <= k < |order| && order[k] == r.value
                                    && forall j :: 0 <= j < k ==> order[j] !in implemented
    ensures r.None? ==> forall k :: 0 <= k < |order| ==> order[k] !in implemented
  {
    if order == [] then None
    else if order[0] in implemented then Some(order[0])
    else
      var rest := FirstImplemented(order[1..], implemented);
      if rest.None? then
        assert forall k :: 1 <= k < |order| ==> order[k] == order[1..][k - 1];
        rest
      else
        var k :| 0 <= k < |order[1..]| && order[1..][k] == rest.value
                 && forall j :: 0 <= j < k ==> order[1..][j] !in implemented;
        assert order[k + 1] == rest.value;
        assert forall j :: 1 <= j < k + 1 ==> order[j] == order[1..][j - 1];
        rest
  }

  /** The order in which the decision tree of `getResultSetType` prefers interfaces. */
  const Preference: seq<JdbcInterface> :=
    [FilteredRowSet, JoinRowSet, WebRowSet, CachedRowSet, JdbcRowSet, RowSet, ResultSet]

  /**
   * The decision tree is a fixed preference order: the result is the first
   * interface of `Preference` that the result set implements.
   */
  lemma ResultSetTypeFollowsPreference(implemented: set<JdbcInterface>)
    requires InstanceofClosed(implemented)
    ensures FirstImplemented(Preference, implemented) == Some(ResultSetType(implemented))
  {
    var s := implemented;
    var p0 := Preference;
    var p1 := [JoinRowSet, WebRowSet, CachedRowSet, JdbcRowSet, RowSet, ResultSet];
    var p2 := [WebRowSet, CachedRowSet, JdbcRowSet, RowSet, ResultSet];
    var p3 := [CachedRowSet, JdbcRowSet, RowSet, ResultSet];
    var p4 := [JdbcRowSet, RowSet, ResultSet];
    var p5 := [RowSet, ResultSet];
    assert p0[1..] == p1 && p1[1..] == p2 && p2[1..] == p3 && p3[1..] == p4 && p4[1..] == p5;
    assert FirstImplemented(p5, s) == if RowSet in s then Some(RowSet) else Some(ResultSet);
    assert FirstImplemented(p4, s) == if JdbcRowSet in s then Some(JdbcRowSet) else FirstImplemented(p5, s);
    assert FirstImplemented(p3, s) == if CachedRowSet in s then Some(CachedRowSet) else FirstImplemented(p4, s);
    assert FirstImplemented(p2, s) == if WebRowSet in s then Some(WebRowSet) else FirstImplemented(p3, s);
    assert FirstImplemented(p1, s) == if JoinRowSet in s then Some(JoinRowSet) else FirstImplemented(p2, s);
  }

  /** The branches of `getResultSetType`, as the source orders them. */
  lemma ResultSetTypeCases(implemented: set<JdbcInterface>)
    requires InstanceofClosed(implemented)
    ensures RowSet !in implemented <==> ResultSetType(implemented) == ResultSet
    ensures FilteredRowSet in implemented <==> ResultSetType(implemented) == FilteredRowSet
    ensures JoinRowSet in implemented && FilteredRowSet !in implemented
            <==> ResultSetType(implemented) == JoinRowSet
    ensures WebRowSet in implemented && FilteredRowSet !in implemented && JoinRowSet !in implemented
            <==> ResultSetType(implemented) == WebRowSet
    ensures CachedRowSet in implemented && WebRowSet !in implemented
            <==> ResultSetType(implemented) == CachedRowSet
    ensures JdbcRowSet in implemented && CachedRowSet !in implemented
            <==> ResultSetType(implemented) == JdbcRowSet
    ensures RowSet in implemented && CachedRowSet !in implemented && JdbcRowSet !in implemented
            <==> ResultSetType(implemented) == RowSet
  {
  }

  // ---------------------------------------------------------------------
  // Timer starts requested of the naming strategy
  // ---------------------------------------------------------------------

  /** Which of the strategy's `start*Timer` operations was called. */
  datatype TimerKind =
    | PooledConnectionLife | ConnectionLife | StatementLife
    | StatementExecute | PreparedStatementLife | PreparedStatementExecute
    | CallableStatementLife | CallableStatementExecute | ResultSetLife

  /** One timer start, with the arguments it was requested with. */
  datatype TimerStart = TimerStart(
    kind: TimerKind, connectionFactoryName: string, sql: Option<string>, sqlId: Option<string>)

  /** A started timer (`Timer.Context`), identified by its position in the start log. */
  datatype TimerContext = TimerContext(start: nat)

  /** A started statement timer with the sql and sql id the strategy settled on. */
  datatype StatementTimerContext = StatementTimerContext(
    timerContext: TimerContext, sql: string, sqlId: Option<string>)

  /** The timer of a possibly null statement timer context. */
  function TimerOf(context: Option<StatementTimerContext>): (timer: Option<TimerContext>) {
    if context.Some? then Some(context.value.timerContext) else None
  }

  /**
   * The naming strategy of this package, as far as the factory sees it.
   * Its code is not part of this model, so its decisions are abstract
   * functions of the request: `starts` says whether it starts a timer at all
   * (when not, it returns null), and `resolveSql` and `resolveSqlId` give the sql
   * and sql id a statement timer context carries.  Every start is logged.
   */
  class MetricNamingStrategy {
    const starts: TimerStart -> bool
    const resolveSql: (string, Option<string>) -> string
    const resolveSqlId: (string, Option<string>) -> Option<string>
    var started: seq<TimerStart>

    constructor (starts: TimerStart -> bool, resolveSql: (string, Option<string>) -> string,
                 resolveSqlId: (string, Option<string>) -> Option<string>)
      ensures this.starts == starts && this.resolveSql == resolveSql && this.resolveSqlId == resolveSqlId
      ensures started == []
    {
      this.starts := starts;
      this.resolveSql := resolveSql;
      this.resolveSqlId := resolveSqlId;
      started := [];
    }

    /**
     * The outcome of one request: when the strategy starts a timer, exactly
     * that start is logged and `context` is it; otherwise nothing is logged
     * and `context` is null.
     */
    twostate predicate Answered(request: TimerStart, new context: Option<TimerContext>)
      reads this
    {
      if starts(request) then
        started == old(started) + [request] && context == Some(TimerContext(|old(started)|))
      else
        started == old(started) && context == None
    }

    /** `start*Timer` returning a bare `Timer.Context`. */
    method StartTimer(kind: TimerKind, connectionFactoryName: string, sql: Option<string>, sqlId: Option<string>)
      returns (context: Option<TimerContext>)
      modifies this
      ensures Answered(TimerStart(kind, connectionFactoryName, sql, sqlId), context)
    {
      var request := TimerStart(kind, connectionFactoryName, sql, sqlId);
      if starts(request) {
        context := Some(TimerContext(|started|));
        started := started + [request];
      } else {
        context := None;
      }
    }

    /** `start*Timer` returning a `StatementTimerContext`. */
    method StartStatementTimer(kind: TimerKind, connectionFactoryName: string, sql: string, sqlId: Option<string>)
      returns (context: Option<StatementTimerContext>)
      modifies this
      ensures Answered(TimerStart(kind, connectionFactoryName, Some(sql), sqlId), TimerOf(context))
      ensures context.Some? ==> context.value.sql == resolveSql(sql, sqlId)
      ensures context.Some? ==> context.value.sqlId == resolveSqlId(sql, sqlId)
    {
      var timer := StartTimer(kind, connectionFactoryName, Some(sql), sqlId);
      if timer.Some? {
        context := Some(StatementTimerContext(timer.value, resolveSql(sql, sqlId), resolveSqlId(sql, sqlId)));
      } else {
        context := None;
      }
    }
  }

  // ---------------------------------------------------------------------
  // Proxy handlers and the factory
  // ---------------------------------------------------------------------

  /** The interface a pooled-connection proxy implements. */
  datatype PooledInterface = PooledConnection | XAConnection

  /** The handler class behind a proxy, with what its class is parameterised by. */
  datatype HandlerRole =
    | DataSourceHandler | XADataSourceHandler
    | PooledConnectionHandler(proxyInterface: PooledInterface)
    | ConnectionHandler | StatementHandler
    | PreparedStatementHandler | CallableStatementHandler
    | ResultSetHandler(resultSetType: JdbcInterface)

  /** A delegate is known by its identity; a result set also by what it implements. */
  datatype Delegate = Delegate(id: nat, implemented: set<JdbcInterface>)

  /** A proxy, reduced to the handler it routes every call through. */
  datatype ProxyHandler = ProxyHandler(
    role: HandlerRole,
    delegate: Delegate,
    connectionFactoryName: string,
    lifeTimer: Option<TimerContext>,
    sql: Option<string>,
    sqlId: Option<string>)

  /** What a `wrap*` call can throw. */
  datatype JavaException = NullPointerException

  class JdbcProxyFactory {
    const strategy: MetricNamingStrategy

    constructor (strategy: MetricNamingStrategy)
      ensures this.strategy == strategy
    {
      this.strategy := strategy;
    }

    /** `wrapDataSource`: starts no timer; connections are timed when handed out. */
    method WrapDataSource(connectionFactoryName: string, dataSource: Delegate) returns (proxy: ProxyHandler)
      ensures proxy.role == DataSourceHandler && proxy.delegate == dataSource
      ensures proxy.connectionFactoryName == connectionFactoryName
      ensures proxy.lifeTimer == None && proxy.sql == None && proxy.sqlId == None
    {
      proxy := ProxyHandler(DataSourceHandler, dataSource, connectionFactoryName, None, None, None);
    }

    /** `wrapXADataSource`: starts no timer. */
    method WrapXADataSource(connectionFactoryName: string, dataSource: Delegate) returns (proxy: ProxyHandler)
      ensures proxy.role == XADataSourceHandler && proxy.delegate == dataSource
      ensures proxy.connectionFactoryName == connectionFactoryName
      ensures proxy.lifeTimer == None && proxy.sql == None && proxy.sqlId == None
    {
      proxy := ProxyHandler(XADataSourceHandler, dataSource, connectionFactoryName, None, None, None);
    }

    /** `wrapPooledConnection`: requests one pooled-connection life timer; the handler holds the answer. */
    method WrapPooledConnection(connectionFactoryName: string, connection: Delegate) returns (proxy: ProxyHandler)
      modifies strategy
      ensures strategy.Answered(TimerStart(PooledConnectionLife, connectionFactoryName, None, None), proxy.lifeTimer)
      ensures proxy.role == PooledConnectionHandler(PooledConnection) && proxy.delegate == connection
      ensures proxy.connectionFactoryName == connectionFactoryName && proxy.sql == None && proxy.sqlId == None
    {
      var lifeTimer := strategy.StartTimer(PooledConnectionLife, connectionFactoryName, None, None);
      proxy := ProxyHandler(PooledConnectionHandler(PooledConnection), connection, connectionFactoryName,
                            lifeTimer, None, None);
    }

    /** `wrapXAConnection`: the same pooled-connection life timer, behind an XA proxy. */
    method WrapXAConnection(connectionFactoryName: string, connection: Delegate) returns (proxy: ProxyHandler)
      modifies strategy
      ensures strategy.Answered(TimerStart(PooledConnectionLife, connectionFactoryName, None, None), proxy.lifeTimer)
      ensures proxy.role == PooledConnectionHandler(XAConnection) && proxy.delegate == connection
      ensures proxy.connectionFactoryName == connectionFactoryName && proxy.sql == None && proxy.sqlId == None
    {
      var lifeTimer := strategy.StartTimer(PooledConnectionLife, connectionFactoryName, None, None);
      proxy := ProxyHandler(PooledConnectionHandler(XAConnection), connection, connectionFactoryName,
                            lifeTimer, None, None);
    }

    /** `wrapConnection`: requests one connection life timer; the handler holds the answer. */
    method WrapConnection(connectionFactoryName: string, connection: Delegate) returns (proxy: ProxyHandler)
      modifies strategy
      ensures strategy.Answered(TimerStart(ConnectionLife, connectionFactoryName, None, None), proxy.lifeTimer)
      ensures proxy.role == ConnectionHandler && proxy.delegate == connection
      ensures proxy.connectionFactoryName == connectionFactoryName && proxy.sql == None && proxy.sqlId == None
    {
      var lifeTimer := strategy.StartTimer(ConnectionLife, connectionFactoryName, None, None);
      proxy := ProxyHandler(ConnectionHandler, connection, connectionFactoryName, lifeTimer, None, None);
    }

    /** `wrapStatement`: requests one statement life timer; the handler holds the answer. */
    method WrapStatement(connectionFactoryName: string, statement: Delegate) returns (proxy: ProxyHandler)
      modifies strategy
      ensures strategy.Answered(TimerStart(StatementLife, connectionFactoryName, None, None), proxy.lifeTimer)
      ensures proxy.role == StatementHandler && proxy.delegate == statement
      ensures proxy.connectionFactoryName == connectionFactoryName && proxy.sql == None && proxy.sqlId == None
    {
      var lifeTimer := strategy.StartTimer(StatementLife, connectionFactoryName, None, None);
      proxy := ProxyHandler(StatementHandler, statement, connectionFactoryName, lifeTimer, None, None);
    }

    /** `startStatementExecuteTimer`: forwarded to the strategy unchanged, null included. */
    method StartStatementExecuteTimer(connectionFactoryName: string, sql: string)
      returns (context: Option<StatementTimerContext>)
      modifies strategy
      ensures strategy.Answered(TimerStart(StatementExecute, connectionFactoryName, Some(sql), None), TimerOf(context))
      ensures context.Some? ==> context.value.sql == strategy.resolveSql(sql, None)
      ensures context.Some? ==> context.value.sqlId == strategy.resolveSqlId(sql, None)
    {
      context := strategy.StartStatementTimer(StatementExecute, connectionFactoryName, sql, None);
    }

    /**
     * `wrapPreparedStatement`: the life timer is requested with no sql id.
     * A null context is dereferenced and throws; otherwise the handler gets
     * the context's timer and the sql and sql id the context carries.
     */
    method WrapPreparedStatement(connectionFactoryName: string, statement: Delegate, sql: string)
      returns (result: Result<ProxyHandler, JavaException>)
      modifies strategy
      ensures strategy.Answered(TimerStart(PreparedStatementLife, connectionFactoryName, Some(sql), None),
                                if result.Success? then result.value.lifeTimer else None)
      ensures result.Failure? <==> !strategy.starts(TimerStart(PreparedStatementLife, connectionFactoryName, Some(sql), None))
      ensures result.Success? ==> result.value.role == PreparedStatementHandler && result.value.delegate == statement
      ensures result.Success? ==> result.value.connectionFactoryName == connectionFactoryName
      ensures result.Success? ==> result.value.sql == Some(strategy.resolveSql(sql, None))
      ensures result.Success? ==> result.value.sqlId == strategy.resolveSqlId(sql, None)
    {
      var context := strategy.StartStatementTimer(PreparedStatementLife, connectionFactoryName, sql, None);
      if context.None? {
        return Failure(NullPointerException);
      }
      var c := context.value;
      result := Success(ProxyHandler(PreparedStatementHandler, statement, connectionFactoryName,
                                     Some(c.timerContext), Some(c.sql), c.sqlId));
    }

    /** `startPreparedStatementExecuteTimer`: forwarded to the strategy unchanged, null included. */
    method StartPreparedStatementExecuteTimer(connectionFactoryName: string, sql: string, sqlId: Option<string>)
      returns (context: Option<StatementTimerContext>)
      modifies strategy
      ensures strategy.Answered(TimerStart(PreparedStatementExecute, connectionFactoryName, Some(sql), sqlId), TimerOf(context))
      ensures context.Some? ==> context.value.sql == strategy.resolveSql(sql, sqlId)
      ensures context.Some? ==> context.value.sqlId == strategy.resolveSqlId(sql, sqlId)
    {
      context := strategy.StartStatementTimer(PreparedStatementExecute, connectionFactoryName, sql, sqlId);
    }

    /**
     * `wrapCallableStatement`: the life timer is requested with no sql id.
     * A null context is dereferenced and throws; otherwise the handler gets
     * the context's timer and the sql and sql id the context carries.
     */
    method WrapCallableStatement(connectionFactoryName: string, statement: Delegate, sql: string)
      returns (result: Result<ProxyHandler, JavaException>)
      modifies strategy
      ensures strategy.Answered(TimerStart(CallableStatementLife, connectionFactoryName, Some(sql), None),
                                if result.Success? then result.value.lifeTimer else None)
      ensures result.Failure? <==> !strategy.starts(TimerStart(CallableStatementLife, connectionFactoryName, Some(sql), None))
      ensures result.Success? ==> result.value.role == CallableStatementHandler && result.value.delegate == statement
      ensures result.Success? ==> result.value.connectionFactoryName == connectionFactoryName
      ensures result.Success? ==> result.value.sql == Some(strategy.resolveSql(sql, None))
      ensures result.Success? ==> result.value.sqlId == strategy.resolveSqlId(sql, None)
    {
      var context := strategy.StartStatementTimer(CallableStatementLife, connectionFactoryName, sql, None);
      if context.None? {
        return Failure(NullPointerException);
      }
      var c := context.value;
      result := Success(ProxyHandler(CallableStatementHandler, statement, connectionFactoryName,
                                     Some(c.timerContext), Some(c.sql), c.sqlId));
    }

    /** `startCallableStatementExecuteTimer`: forwarded to the strategy unchanged, null included. */
    method StartCallableStatementExecuteTimer(connectionFactoryName: string, sql: string, sqlId: Option<string>)
      returns (context: Option<StatementTimerContext>)
      modifies strategy
      ensures strategy.Answered(TimerStart(CallableStatementExecute, connectionFactoryName, Some(sql), sqlId), TimerOf(context))
      ensures context.Some? ==> context.value.sql == strategy.resolveSql(sql, sqlId)
      ensures context.Some? ==> context.value.sqlId == strategy.resolveSqlId(sql, sqlId)
    {
      context := strategy.StartStatementTimer(CallableStatementExecute, connectionFactoryName, sql, sqlId);
    }

    /**
     * `wrapResultSet`: requests one result-set life timer with the given sql
     * and sql id; the proxy implements the most specific interface of the result set.
     */
    method WrapResultSet(connectionFactoryName: string, resultSet: Delegate, sql: string, sqlId: Option<string>)
      returns (proxy: ProxyHandler)
      requires InstanceofClosed(resultSet.implemented)
      modifies strategy
      ensures strategy.Answered(TimerStart(ResultSetLife, connectionFactoryName, Some(sql), sqlId), proxy.lifeTimer)
      ensures proxy.role == ResultSetHandler(ResultSetType(resultSet.implemented))
      ensures proxy.delegate == resultSet && proxy.connectionFactoryName == connectionFactoryName
      ensures proxy.sql == None && proxy.sqlId == None
    {
      var lifeTimer := strategy.StartTimer(ResultSetLife, connectionFactoryName, Some(sql), sqlId);
      proxy := ProxyHandler(ResultSetHandler(ResultSetType(resultSet.implemented)), resultSet,
                            connectionFactoryName, lifeTimer, None, None);
    }
  }
}
