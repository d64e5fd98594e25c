# metrics-sql: instrument cache, timing observations and JDBC wrapping policy

A Dafny model of the bookkeeping core of metrics-sql, a library that wraps
JDBC objects (data sources, connections, statements, result sets) so that
their lifetimes and executions are timed and the rows read are counted.

The model has three parts.

- **`MetricHelper`** (module `Metrics`): the instrument cache and recorder.
  It is a class with two name-keyed tables: `timers`, names to `Timer`
  objects, and `counters`, names to counts. `StartTimer` and `IncCounter` get
  or create the named instrument, and a `None` name (Java `null`) is a no-op.
  Every query-based operation first resolves the query's sql id
  (`EnsureSqlId`) and then asks the naming strategy for a name built from the
  query's sql and that resolved id. `Valid()` says that no two names share
  a timer.
- **`TimeObservation`** (module `TimeObservations`): a timer and a start
  instant, both fixed at construction. `Close(now)` appends one sample,
  `now - startTime`, to that timer. A `Timer` is reduced to the sequence of
  samples recorded on it, so its count is the length of that sequence.
- **`JdbcProxyFactory`** (module `JdbcProxy`, the `net.gquintana` package).
  `ResultSetType` is the decision tree that picks the interface a result set
  is proxied as. The `wrap*` methods decide which life timer is started when a
  handler is built, and what the handler is built from. A proxy is modelled by
  its handler record: role, delegate, connection-factory name, life-timer
  context, sql and sql id.

The naming strategy of the `com.github` package (module `Naming`) is a
datatype of functions. Any choice of those functions is a strategy, so every
property above holds for every strategy. The strategy of the `net.gquintana`
package both names and starts timers. It is modelled by what the factory can
observe of it: a log `started` of every timer start, with its arguments. A
timer context is the position of its start in that log. Whether the strategy
starts a timer at all (it returns null when it does not), and the sql and sql
id a statement timer context carries, are abstract functions of the request
(`starts`, `resolveSql`, `resolveSqlId`). `wrapPreparedStatement` and
`wrapCallableStatement` read the context without a null check
(JdbcProxyFactory.java:167, 190), so for a null context the model's wrap
returns `Failure(NullPointerException)`.

Clock readings (`System.nanoTime()`) are explicit `now` parameters. Module
`Scenarios` restates on the recorder what three of the repository's tests
observe, for every strategy that names the metric involved, and shows that
closing one name's observation leaves every other name's timer untouched.

Two facts about the code that the contracts make explicit:

- `TimeObservation.close` (TimeObservation.java:19-21) has no guard, so every
  call records another sample, and `Close` says so.
- A `Query` keeps an sql id once it has one, as `MetricHelper.getSqlId`
  (MetricHelper.java:119-124) does. When the strategy gives no id, it is asked
  again on the next call and, being a function, gives the same answer.

## Model

| member | source | states |
|---|---|---|
| `Metrics.GetSqlId` | src/main/java/com/github/gquintana/metrics/sql/MetricHelper.java:119-124 | a non-null sql id is returned as given; a null one is replaced by the strategy's id for the sql |
| `Metrics.GetSqlIdIdempotent` | src/main/java/com/github/gquintana/metrics/sql/MetricHelper.java:119-124 | resolving an already resolved sql id gives the same id, so repeated resolution of one query always yields one name |
| `Metrics.Query.EnsureSqlId` | src/main/java/com/github/gquintana/metrics/sql/MetricHelper.java:93-95 | the query's sql id becomes the resolved id of its old id and its sql; its sql does not change |
| `Metrics.Incremented` | src/main/java/com/github/gquintana/metrics/sql/MetricHelper.java:57-63 | for a null name the counter table is unchanged; otherwise the name is added if absent, its count is one more than before (absent counts as 0), and every other counter keeps its value |
| `Metrics.IncrementedTimesAddsK` | src/main/java/com/github/gquintana/metrics/sql/MetricHelper.java:161-165 | k increments of one name raise exactly that counter by exactly k and leave every other name's count and presence as they were |
| `Metrics.MetricHelper.constructor` | src/main/java/com/github/gquintana/metrics/sql/MetricHelper.java:36-47 | the helper keeps the given strategy and starts with empty timer and counter tables |
| `Metrics.MetricHelper.StartTimer` | src/main/java/com/github/gquintana/metrics/sql/MetricHelper.java:49-55 | null name: returns null and changes neither table; otherwise the name is in the timer table, an existing timer is reused with the table unchanged, a missing one is created fresh with no sample and is the only new entry, the observation targets that timer and starts at `now`, no sample is recorded anywhere and the counters are unchanged |
| `Metrics.MetricHelper.IncCounter` | src/main/java/com/github/gquintana/metrics/sql/MetricHelper.java:57-63 | the counter table becomes `Incremented` of the old one and the timer table is unchanged |
| `Metrics.MetricHelper.StartConnectionLifeTimer` | src/main/java/com/github/gquintana/metrics/sql/MetricHelper.java:65-67 | starts the timer the strategy names for a connection's life, as `StartTimer` does |
| `Metrics.MetricHelper.StartConnectionGetTimer` | src/main/java/com/github/gquintana/metrics/sql/MetricHelper.java:69-71 | starts the timer the strategy names for getting a connection, as `StartTimer` does |
| `Metrics.MetricHelper.StartStatementLifeTimer` | src/main/java/com/github/gquintana/metrics/sql/MetricHelper.java:78-80 | starts the timer the strategy names for a statement's life, as `StartTimer` does |
| `Metrics.MetricHelper.EnsureSqlId` | src/main/java/com/github/gquintana/metrics/sql/MetricHelper.java:93-95 | resolves the query's sql id with the helper's own strategy |
| `Metrics.MetricHelper.StartQueryTimer` | src/main/java/com/github/gquintana/metrics/sql/MetricHelper.java:87-91 | the query's sql id is resolved first, and the timer started is the one named from the query's sql and that resolved id |
| `Metrics.MetricHelper.StartStatementExecuteTimer` | src/main/java/com/github/gquintana/metrics/sql/MetricHelper.java:87-91 | the sql id is resolved, then the statement-execute timer named from sql and resolved id is started as `StartTimer` does |
| `Metrics.MetricHelper.StartPreparedStatementLifeTimer` | src/main/java/com/github/gquintana/metrics/sql/MetricHelper.java:102-106 | the sql id is resolved, then the prepared-statement life timer named from sql and resolved id is started |
| `Metrics.MetricHelper.StartPreparedStatementExecuteTimer` | src/main/java/com/github/gquintana/metrics/sql/MetricHelper.java:113-117 | the sql id is resolved, then the prepared-statement execute timer named from sql and resolved id is started |
| `Metrics.MetricHelper.StartCallableStatementLifeTimer` | src/main/java/com/github/gquintana/metrics/sql/MetricHelper.java:131-135 | the sql id is resolved, then the callable-statement life timer named from sql and resolved id is started |
| `Metrics.MetricHelper.StartCallableStatementExecuteTimer` | src/main/java/com/github/gquintana/metrics/sql/MetricHelper.java:142-146 | the sql id is resolved, then the callable-statement execute timer named from sql and resolved id is started |
| `Metrics.MetricHelper.StartResultSetLifeTimer` | src/main/java/com/github/gquintana/metrics/sql/MetricHelper.java:153-157 | the sql id is resolved, then the result-set life timer named from sql and resolved id is started |
| `Metrics.MetricHelper.MarkResultSetRowMeter` | src/main/java/com/github/gquintana/metrics/sql/MetricHelper.java:161-165 | the sql id is resolved, the row counter named from sql and resolved id is incremented as `IncCounter` does, and no timer changes |
| `TimeObservations.Timer.constructor` | src/main/java/com/github/gquintana/metrics/sql/MetricHelper.java:53 | a newly registered timer has recorded no sample |
| `TimeObservations.TimeObservation.constructor` | src/main/java/com/github/gquintana/metrics/sql/TimeObservation.java:10-16 | stores exactly the given timer and start time (both constant afterwards) and records nothing on the timer |
| `TimeObservations.TimeObservation.Close` | src/main/java/com/github/gquintana/metrics/sql/TimeObservation.java:19-21 | appends exactly one sample, `now - startTime`, to its own timer and changes nothing else; every call appends another |
| `Scenarios.StatementLifeTimerRecordsOnClose` | src/test/java/com/github/gquintana/metrics/sql/StatementTest.java:60-71 | the statement life timer exists once started (what the test asserts), with count 0; after the observation is closed it holds exactly the one sample `closedAt - openedAt` |
| `Scenarios.FailedExecutionRecordsNothing` | src/test/java/com/github/gquintana/metrics/sql/StatementTest.java:101-117 | an execute timer whose observation is never closed (the delegate call failed) is registered and has count 0 |
| `Scenarios.CloseRecordsOnItsNameOnly` | src/main/java/com/github/gquintana/metrics/sql/MetricHelper.java:53 | with no two names sharing a timer, closing an observation of one name's timer appends its one sample there, and every other name's samples and the timer table stay as they were |
| `Scenarios.ReadRows` | src/test/java/com/github/gquintana/metrics/sql/ResultSetTest.java:61-82 | marking the row meter once per row read, for any number of rows, leaves that row counter at exactly the number of rows |
| `JdbcProxy.ResultSetType` | src/main/java/net/gquintana/metrics/sql/JdbcProxyFactory.java:222-246 | for any instanceof-closed interface set, the chosen interface is one the result set implements, and no interface it implements is strictly more specific |
| `JdbcProxy.FirstImplemented` | src/main/java/net/gquintana/metrics/sql/JdbcProxyFactory.java:222-246 | reference definition: the first interface of a preference list that is implemented; it is implemented, it stands at some position of the list with no implemented interface before it, or no listed interface is implemented |
| `JdbcProxy.ResultSetTypeFollowsPreference` | src/main/java/net/gquintana/metrics/sql/JdbcProxyFactory.java:222-246 | the decision tree equals the first implemented interface in the order FilteredRowSet, JoinRowSet, WebRowSet, CachedRowSet, JdbcRowSet, RowSet, ResultSet |
| `JdbcProxy.ResultSetTypeCases` | src/main/java/net/gquintana/metrics/sql/JdbcProxyFactory.java:224-244 | in both directions: not a RowSet gives ResultSet; FilteredRowSet wins over JoinRowSet; JoinRowSet without FilteredRowSet; any other WebRowSet; CachedRowSet without WebRowSet wins over JdbcRowSet; JdbcRowSet without CachedRowSet; a plain RowSet |
| `JdbcProxy.MetricNamingStrategy.StartTimer` | src/main/java/net/gquintana/metrics/sql/JdbcProxyFactory.java:106 | when the strategy starts the requested timer, that start is logged once with exactly its arguments and the context is its position; otherwise nothing is logged and the context is null |
| `JdbcProxy.MetricNamingStrategy.StartStatementTimer` | src/main/java/net/gquintana/metrics/sql/JdbcProxyFactory.java:166 | as `StartTimer`, and a non-null context carries that start with the strategy's sql and sql id for the request |
| `JdbcProxy.JdbcProxyFactory.constructor` | src/main/java/net/gquintana/metrics/sql/JdbcProxyFactory.java:62-65 | the factory keeps the given naming strategy |
| `JdbcProxy.JdbcProxyFactory.WrapDataSource` | src/main/java/net/gquintana/metrics/sql/JdbcProxyFactory.java:83-85 | a data-source handler on the delegate and name, with no life timer, no sql and no sql id; nothing is started |
| `JdbcProxy.JdbcProxyFactory.WrapXADataSource` | src/main/java/net/gquintana/metrics/sql/JdbcProxyFactory.java:94-96 | an XA data-source handler on the delegate and name, with no life timer; nothing is started |
| `JdbcProxy.JdbcProxyFactory.WrapPooledConnection` | src/main/java/net/gquintana/metrics/sql/JdbcProxyFactory.java:105-108 | exactly one pooled-connection life timer is requested and only that one may be started; the pooled-connection handler (proxying PooledConnection) holds the strategy's answer, null included |
| `JdbcProxy.JdbcProxyFactory.WrapXAConnection` | src/main/java/net/gquintana/metrics/sql/JdbcProxyFactory.java:117-120 | exactly one pooled-connection life timer (the same kind as for pooled connections) is requested, and the handler proxying XAConnection holds the strategy's answer, null included |
| `JdbcProxy.JdbcProxyFactory.WrapConnection` | src/main/java/net/gquintana/metrics/sql/JdbcProxyFactory.java:129-132 | exactly one connection life timer is requested, and the connection handler holds the strategy's answer, null included |
| `JdbcProxy.JdbcProxyFactory.WrapStatement` | src/main/java/net/gquintana/metrics/sql/JdbcProxyFactory.java:141-144 | exactly one statement life timer is requested, and the statement handler holds the strategy's answer, null included |
| `JdbcProxy.JdbcProxyFactory.StartStatementExecuteTimer` | src/main/java/net/gquintana/metrics/sql/JdbcProxyFactory.java:153-155 | the strategy's statement-execute start is requested with the arguments unchanged, and its context, null included, is returned |
| `JdbcProxy.JdbcProxyFactory.WrapPreparedStatement` | src/main/java/net/gquintana/metrics/sql/JdbcProxyFactory.java:165-168 | exactly one prepared-statement life timer is requested with the sql and a null sql id; a null context throws a NullPointerException, otherwise the handler gets the context's timer, sql and sql id |
| `JdbcProxy.JdbcProxyFactory.StartPreparedStatementExecuteTimer` | src/main/java/net/gquintana/metrics/sql/JdbcProxyFactory.java:176-178 | the strategy's prepared-statement-execute start is requested with the arguments unchanged, and its context, null included, is returned |
| `JdbcProxy.JdbcProxyFactory.WrapCallableStatement` | src/main/java/net/gquintana/metrics/sql/JdbcProxyFactory.java:188-191 | exactly one callable-statement life timer is requested with the sql and a null sql id; a null context throws a NullPointerException, otherwise the handler gets the context's timer, sql and sql id |
| `JdbcProxy.JdbcProxyFactory.StartCallableStatementExecuteTimer` | src/main/java/net/gquintana/metrics/sql/JdbcProxyFactory.java:200-202 | the strategy's callable-statement-execute start is requested with the arguments unchanged, and its context, null included, is returned |
| `JdbcProxy.JdbcProxyFactory.WrapResultSet` | src/main/java/net/gquintana/metrics/sql/JdbcProxyFactory.java:213-216 | exactly one result-set life timer is requested with the given sql and sql id, and the handler holding the strategy's answer proxies the result set as `ResultSetType` of its interfaces |

## Left out

- Reflective proxy creation (`newProxy`, `ProxyFactory`, `ReflectProxyFactory`): a runtime-reflection facility whose code is not part of this model. A proxy is its handler record.
- The handler classes (`ConnectionProxyHandler`, `StatementProxyHandler`, `ResultSetProxyHandler`, ...): their code is not part of this model. So the forwarding, the closing of life timers and the per-row marking are not modelled; the scenarios call the recorder as the tests observe it. The handler's reference to its factory is not kept in the record.
- The two `JdbcProxyFactory` constructors that build a default strategy and a `ReflectProxyFactory` (JdbcProxyFactory.java:43-54): the defaults they build are not part of this model.
- The naming strategies' implementations and their SQL normalisation (lower-casing and the like): they are not part of this model. Both strategies are abstract.
- The `net.gquintana` strategy's decisions (`starts`, `resolveSql`, `resolveSqlId`) are functions of the request alone: its code is not part of this model, so a decision that depends on its own state is not captured.
- `Metrics.Query.EnsureSqlId`: `Query` is not part of this model. Its lazy caching is assumed to behave like `MetricHelper.getSqlId`.
- The Micrometer and Codahale registries, `Timer.record` and `Counter.increment`: foreign library calls. A timer is its sample sequence and a counter is a natural number. Registration with the backend, and its own idempotence by name, are not modelled.
- `TimeObservations.TimeObservation.Close`: the sample is `now - startTime` on unbounded integers. Java's 64-bit `long` subtraction, and the time unit attached to the sample, are not modelled.
- `System.nanoTime()`: a real clock; its readings are parameters.
- Thread safety of `ConcurrentHashMap.computeIfAbsent`: concurrency is out of scope. Each get-or-create is one atomic sequential step.
- Null connection-factory names and null sql strings: the strategies' handling of them is unknown, so they are modelled as non-null strings. Null metric names and null sql ids are modelled, as `None`.
- `DefaultObjectNameFactory`: a thin wrapper over JMX `ObjectName` construction, whose rules live in `javax.management`.
