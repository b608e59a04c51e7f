/**
 * The regular-expression engine the registry relies on (Foundation's
 * NSRegularExpression). Its semantics are not modelled: an engine is a value
 * that says which patterns compile and how many matches a compiled pattern
 * has in a path, within the search range the registry passes to it, and every
 * caller takes the engine as a parameter.
 */
module Regex {
  import opened Wrappers

  datatype RegexEngine = RegexEngine(compiles: string -> bool, matchCount: (string, string) -> nat)

  /** A compiled pattern, bound to the engine that compiled it. */
  datatype Expression = Expression(engine: RegexEngine, pattern: string)

  /** Compiling a pattern fails exactly when the engine rejects it. */
  function Compile(engine: RegexEngine, pattern: string): (expression: Option<Expression>)
    ensures expression.Some? <==> engine.compiles(pattern)
    ensures expression.Some? ==> expression.value == Expression(engine, pattern)
  {
    if engine.compiles(pattern) then Some(Expression(engine, pattern)) else None
  }

  /**
   * Number of matches of the expression in `text`, within the search range the
   * registry passes (from 0 over as many UTF-16 units as `text` has Characters).
   */
  function MatchCount(expression: Expression, text: string): nat
  {
    expression.engine.matchCount(expression.pattern, text)
  }
}
