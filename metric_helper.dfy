/**
 * `MetricHelper`: the instrument cache and recorder.  It keeps one table of
 * timers and one of counters, both keyed by metric name, and creates an
 * instrument the first time its name is used.  A `None` name is a no-op.
 */
module Metrics {
  import opened Wrappers
  import opened Naming
  import opened TimeObservations

  /** `getSqlId`: a given sql id wins; otherwise the strategy identifies the sql. */
  function GetSqlId(strategy: MetricNamingStrategy, sqlId: Option<string>, sql: string): (r: Option<string>)
    ensures sqlId.Some? ==> r == sqlId
    ensures sqlId.None? ==> r == strategy.getSqlId(sql)
  {
    if sqlId.None? then strategy.getSqlId(sql) else sqlId
  }

  /** Resolving an already resolved sql id changes nothing. */
  lemma GetSqlIdIdempotent(strategy: MetricNamingStrategy, sqlId: Option<string>, sql: string)
    ensures GetSqlId(strategy, GetSqlId(strategy, sqlId, sql), sql) == GetSqlId(strategy, sqlId, sql)
  {
  }

  /**
   * A query: its sql text and its lazily computed sql id.  The class itself
   * is not part of this model; `EnsureSqlId` is given the behaviour of
   * `GetSqlId`: a cached id is kept, a missing one is asked of the strategy.
   */
  class Query {
    const sql: string
    var sqlId: Option<string>

    constructor (sql: string, sqlId: Option<string>)
      ensures this.sql == sql && this.sqlId == sqlId
    {
      this.sql := sql;
      this.sqlId := sqlId;
    }

    method EnsureSqlId(strategy: MetricNamingStrategy)
      modifies this
      ensures sqlId == GetSqlId(strategy, old(sqlId), sql)
    {
      sqlId := GetSqlId(strategy, sqlId, sql);
    }
  }

  /** The count held by the counter named `name`; an absent counter reads 0. */
  function CountOf(counters: map<string, nat>, name: string): (count: nat) {
    if name in counters then counters[name] else 0
  }

  /**
   * The counter table after `incCounter(name)`: nothing for `None`;
   * otherwise the named counter, created at 0 when absent, is one higher
   * and every other counter is as it was.
   */
  function Incremented(counters: map<string, nat>, name: Option<string>): (r: map<string, nat>)
    ensures name.None? ==> r == counters
    ensures name.Some? ==> r.Keys == counters.Keys + {name.value}
    ensures name.Some? ==> CountOf(r, name.value) == CountOf(counters, name.value) + 1
    ensures forall n :: n in counters && Some(n) != name ==> n in r && r[n] == counters[n]
  {
    match name
    case None => counters
    case Some(n) => counters[n := CountOf(counters, n) + 1]
  }

  /** The counter table after `k` calls of `incCounter(name)`. */
  function IncrementedTimes(counters: map<string, nat>, name: Option<string>, k: nat): (r: map<string, nat>) {
    if k == 0 then counters else Incremented(IncrementedTimes(counters, name, k - 1), name)
  }

  /**
   * `k` increments of the same name raise that counter by exactly `k` and
   * leave every other counter, present or absent, as it was.
   */
  lemma {:induction false} IncrementedTimesAddsK(counters: map<string, nat>, name: string, k: nat)
    ensures forall n :: CountOf(IncrementedTimes(counters, Some(name), k), n)
                        == CountOf(counters, n) + (if n == name then k else 0)
    ensures IncrementedTimes(counters, Some(name), k).Keys
            == if k == 0 then counters.Keys else counters.Keys + {name}
  {
    if k > 0 {
      IncrementedTimesAddsK(counters, name, k - 1);
    }
  }

  /** Entries of `m0` are all in `m1`, with the same value. */
  ghost predicate IsExtension<K, V>(m0: map<K, V>, m1: map<K, V>) {
    forall k :: k in m0 ==> k in m1 && m1[k] == m0[k]
  }

  class MetricHelper {
    const strategy: MetricNamingStrategy
    var timers: map<string, Timer>
    var counters: map<string, nat>

    /** Every name has its own timer: no two names share one. */
    ghost predicate Valid()
      reads this
    {
      forall a, b :: a in timers && b in timers && a != b ==> timers[a] != timers[b]
    }

    constructor (strategy: MetricNamingStrategy)
      ensures Valid()
      ensures this.strategy == strategy && timers == map[] && counters == map[]
    {
      this.strategy := strategy;
      timers := map[];
      counters := map[];
    }

    /**
     * What `startTimer(name)` does, for a call that began in the old state:
     * nothing at all for `None`; otherwise the name is in the timer table
     * (reused when present, else a fresh timer with no sample), the observation
     * points at that timer and started at `now`, and no entry was replaced.
     */
    twostate predicate TimerStarted(new name: Option<string>, now: int, new obs: TimeObservation?)
      reads this, timers.Values
    {
      && counters == old(counters)
      && IsExtension(old(timers), timers)
      && (name.None? ==> obs == null && timers == old(timers))
      && (name.Some? ==>
            && name.value in timers
            && obs != null && fresh(obs)
            && obs.timer == timers[name.value] && obs.startTime == now
            && (name.value in old(timers) ==> timers == old(timers))
            && (name.value !in old(timers) ==>
                  && fresh(timers[name.value])
                  && timers[name.value].samples == []
                  && timers == old(timers)[name.value := timers[name.value]]))
    }

    /** `startTimer`: get or create the named timer and start observing it. */
    method StartTimer(name: Option<string>, now: int) returns (obs: TimeObservation?)
      requires Valid()
      modifies this
      ensures Valid()
      ensures TimerStarted(name, now, obs)
    {
      if name.None? {
        return null;
      }
      var n := name.value;
      if n !in timers {
        var timer := new Timer();
        timers := timers[n := timer];
      }
      obs := new TimeObservation(timers[n], now);
    }

    /** `incCounter`: get or create the named counter and add one to it. */
    method IncCounter(name: Option<string>)
      requires Valid()
      modifies this
      ensures Valid()
      ensures timers == old(timers)
      ensures counters == Incremented(old(counters), name)
    {
      if name.None? {
        return;
      }
      counters := Incremented(counters, name);
    }

    method StartConnectionLifeTimer(now: int) returns (obs: TimeObservation?)
      requires Valid()
      modifies this
      ensures Valid()
      ensures TimerStarted(strategy.connectionLifeTimer, now, obs)
    {
      obs := StartTimer(strategy.connectionLifeTimer, now);
    }

    method StartConnectionGetTimer(now: int) returns (obs: TimeObservation?)
      requires Valid()
      modifies this
      ensures Valid()
      ensures TimerStarted(strategy.connectionGetTimer, now, obs)
    {
      obs := StartTimer(strategy.connectionGetTimer, now);
    }

    method StartStatementLifeTimer(now: int) returns (obs: TimeObservation?)
      requires Valid()
      modifies this
      ensures Valid()
      ensures TimerStarted(strategy.statementLifeTimer, now, obs)
    {
      obs := StartTimer(strategy.statementLifeTimer, now);
    }

    /** `ensureSqlId`: resolve the query's sql id with this helper's strategy. */
    method EnsureSqlId(query: Query)
      modifies query
      ensures query.sqlId == GetSqlId(strategy, old(query.sqlId), query.sql)
    {
      query.EnsureSqlId(strategy);
    }

    /**
     * The shape shared by every query-based timer: resolve the sql id first,
     * then ask the strategy (`nameOf`) for a name from the sql and that id.
     */
    method StartQueryTimer(nameOf: (string, Option<string>) -> Option<string>, query: Query, now: int)
      returns (obs: TimeObservation?)
      requires Valid()
      modifies this, query
      ensures Valid()
      ensures query.sqlId == GetSqlId(strategy, old(query.sqlId), query.sql)
      ensures TimerStarted(nameOf(query.sql, query.sqlId), now, obs)
    {
      EnsureSqlId(query);
      var name := nameOf(query.sql, query.sqlId);
      obs := StartTimer(name, now);
    }

    method StartStatementExecuteTimer(query: Query, now: int) returns (obs: TimeObservation?)
      requires Valid()
      modifies this, query
      ensures Valid()
      ensures query.sqlId == GetSqlId(strategy, old(query.sqlId), query.sql)
      ensures TimerStarted(strategy.statementExecuteTimer(query.sql, query.sqlId), now, obs)
    {
      obs := StartQueryTimer(strategy.statementExecuteTimer, query, now);
    }

    method StartPreparedStatementLifeTimer(query: Query, now: int) returns (obs: TimeObservation?)
      requires Valid()
      modifies this, query
      ensures Valid()
      ensures query.sqlId == GetSqlId(strategy, old(query.sqlId), query.sql)
      ensures TimerStarted(strategy.preparedStatementLifeTimer(query.sql, query.sqlId), now, obs)
    {
      obs := StartQueryTimer(strategy.preparedStatementLifeTimer, query, now);
    }

    method StartPreparedStatementExecuteTimer(query: Query, now: int) returns (obs: TimeObservation?)
      requires Valid()
      modifies this, query
      ensures Valid()
      ensures query.sqlId == GetSqlId(strategy, old(query.sqlId), query.sql)
      ensures TimerStarted(strategy.preparedStatementExecuteTimer(query.sql, query.sqlId), now, obs)
    {
      obs := StartQueryTimer(strategy.preparedStatementExecuteTimer, query, now);
    }

    method StartCallableStatementLifeTimer(query: Query, now: int) returns (obs: TimeObservation?)
      requires Valid()
      modifies this, query
      ensures Valid()
      ensures query.sqlId == GetSqlId(strategy, old(query.sqlId), query.sql)
      ensures TimerStarted(strategy.callableStatementLifeTimer(query.sql, query.sqlId), now, obs)
    {
      obs := StartQueryTimer(strategy.callableStatementLifeTimer, query, now);
    }

    method StartCallableStatementExecuteTimer(query: Query, now: int) returns (obs: TimeObservation?)
      requires Valid()
      modifies this, query
      ensures Valid()
      ensures query.sqlId == GetSqlId(strategy, old(query.sqlId), query.sql)
      ensures TimerStarted(strategy.callableStatementExecuteTimer(query.sql, query.sqlId), now, obs)
    {
      obs := StartQueryTimer(strategy.callableStatementExecuteTimer, query, now);
    }

    method StartResultSetLifeTimer(query: Query, now: int) returns (obs: TimeObservation?)
      requires Valid()
      modifies this, query
      ensures Valid()
      ensures query.sqlId == GetSqlId(strategy, old(query.sqlId), query.sql)
      ensures TimerStarted(strategy.resultSetLifeTimer(query.sql, query.sqlId), now, obs)
    {
      obs := StartQueryTimer(strategy.resultSetLifeTimer, query, now);
    }

    /** `markResultSetRowMeter`: one more row read for the query's row counter. */
    method MarkResultSetRowMeter(query: Query)
      requires Valid()
      modifies this, query
      ensures Valid()
      ensures query.sqlId == GetSqlId(strategy, old(query.sqlId), query.sql)
      ensures timers == old(timers)
      ensures counters == Incremented(old(counters), strategy.resultSetRowMeter(query.sql, query.sqlId))
    {
      EnsureSqlId(query);
      var name := strategy.resultSetRowMeter(query.sql, query.sqlId);
      IncCounter(name);
    }
  }
}
