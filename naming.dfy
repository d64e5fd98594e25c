/**
 * The metric naming strategy consumed by `MetricHelper`.
 *
 * The strategy's implementations (and the SQL normalisation behind
 * `getSqlId`) are not part of this model: a strategy is any choice of the
 * functions below, so every property proved about the recorder holds for
 * every strategy.  A `None` result is the strategy's `null`, "do not
 * measure this".
 */
module Naming {
  import opened Wrappers

  datatype MetricNamingStrategy = MetricNamingStrategy(
    connectionLifeTimer: Option<string>,
    connectionGetTimer: Option<string>,
    statementLifeTimer: Option<string>,
    statementExecuteTimer: (string, Option<string>) -> Option<string>,
    preparedStatementLifeTimer: (string, Option<string>) -> Option<string>,
    preparedStatementExecuteTimer: (string, Option<string>) -> Option<string>,
    callableStatementLifeTimer: (string, Option<string>) -> Option<string>,
    callableStatementExecuteTimer: (string, Option<string>) -> Option<string>,
    resultSetLifeTimer: (string, Option<string>) -> Option<string>,
    resultSetRowMeter: (string, Option<string>) -> Option<string>,
    getSqlId: string -> Option<string>)
}
