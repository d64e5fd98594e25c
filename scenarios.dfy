/**
 * Clients of the recorder. The first three restate on a fresh
 * `MetricHelper` what the repository's tests observe, for every naming
 * strategy that names the metric involved.
 */
module Scenarios {
  import opened Wrappers
  import opened Naming
  import opened TimeObservations
  import opened Metrics

  /**
   * A statement life timer exists with no sample once the statement is
   * wrapped, and has exactly one, the statement's lifetime, once it is closed.
   */
  method StatementLifeTimerRecordsOnClose(strategy: MetricNamingStrategy, openedAt: int, closedAt: int)
    returns (countBeforeClose: nat, samplesAfterClose: seq<int>)
    requires strategy.statementLifeTimer.Some?
    ensures countBeforeClose == 0
    ensures samplesAfterClose == [closedAt - openedAt]
  {
    var helper := new MetricHelper(strategy);
    var observation := helper.StartStatementLifeTimer(openedAt);
    var timer := helper.timers[strategy.statementLifeTimer.value];
    countBeforeClose := |timer.samples|;
    observation.Close(closedAt);
    samplesAfterClose := timer.samples;
  }

  /**
   * An execution whose delegate call fails never closes its observation:
   * the execute timer is registered and still has no sample.
   */
  method FailedExecutionRecordsNothing(strategy: MetricNamingStrategy, sql: string, now: int)
    returns (registered: bool, count: nat)
    requires strategy.statementExecuteTimer(sql, strategy.getSqlId(sql)).Some?
    ensures registered && count == 0
  {
    var helper := new MetricHelper(strategy);
    var query := new Query(sql, None);
    var observation := helper.StartStatementExecuteTimer(query, now);
    var name := strategy.statementExecuteTimer(sql, query.sqlId).value;
    registered := name in helper.timers;
    count := |helper.timers[name].samples|;
  }

  /**
   * Reading `rows` rows of a result set marks its row meter once per row:
   * the counter ends at exactly `rows`.
   */
  method ReadRows(strategy: MetricNamingStrategy, sql: string, rows: nat) returns (count: nat)
    requires strategy.resultSetRowMeter(sql, strategy.getSqlId(sql)).Some?
    ensures count == rows
  {
    var helper := new MetricHelper(strategy);
    var query := new Query(sql, None);
    var name := strategy.resultSetRowMeter(sql, strategy.getSqlId(sql));
    var i := 0;
    while i < rows
      invariant i <= rows
      invariant helper.Valid() && helper.strategy == strategy
      invariant query.sql == sql && GetSqlId(strategy, query.sqlId, sql) == strategy.getSqlId(sql)
      invariant helper.counters == IncrementedTimes(map[], name, i)
    {
      helper.MarkResultSetRowMeter(query);
      i := i + 1;
    }
    IncrementedTimesAddsK(map[], name.value, rows);
    count := CountOf(helper.counters, name.value);
  }

  /**
   * Closing an observation of one name's timer records on that timer only:
   * since no two names share a timer, every other name's samples are as
   * they were, and so is the timer table.
   */
  method CloseRecordsOnItsNameOnly(helper: MetricHelper, name: string, observation: TimeObservation, now: int)
    requires helper.Valid() && name in helper.timers && observation.timer == helper.timers[name]
    modifies observation.timer
    ensures helper.timers == old(helper.timers)
    ensures helper.timers[name].samples == old(helper.timers[name].samples) + [now - observation.startTime]
    ensures forall other :: other in helper.timers && other != name
              ==> helper.timers[other].samples == old(helper.timers[other].samples)
  {
    observation.Close(now);
  }
}
