/**
 * FakeSmith::Logger: keeps, for each level, the values logged at it, in order.
 */
module Logging {
  import Values

  datatype Level = Verbose | Debug | Info | Warn | Error | Fatal

  type Logs = map<Level, seq<Values.Value>>

  /** What is logged at `level` so far; a level never logged at reads as empty. */
  function Entries(logs: Logs, level: Level): seq<Values.Value> {
    if level in logs then logs[level] else []
  }

  /** `logs` after `v` is appended at `level`. */
  function Record(logs: Logs, level: Level, v: Values.Value): (r: Logs)
    ensures Entries(r, level) == Entries(logs, level) + [v]
    ensures forall l :: l != level ==> Entries(r, l) == Entries(logs, l)
    ensures r.Keys == logs.Keys + {level}
  {
    logs[level := Entries(logs, level) + [v]]
  }

  /**
   * The value a level method appends: the block's result when a block is
   * given (the data argument is then ignored), otherwise the data argument,
   * which defaults to nil.
   */
  function Logged(data: Values.Value, blk: Values.Option<() -> Values.Value>): Values.Value {
    match blk
    case Some(producer) => producer()
    case None => data
  }

  /** Logging a value and logging a block that yields it capture the same thing. */
  lemma LiteralAndBlockAgree(logs: Logs, level: Level, v: Values.Value, ignored: Values.Value)
    ensures Record(logs, level, Logged(v, Values.None))
         == Record(logs, level, Logged(ignored, Values.Some(() => v)))
  {
  }

  class Logger {
    var logs: Logs

    constructor ()
      ensures logs == map[]
      ensures forall l :: Entries(logs, l) == []
    {
      logs := map[];
    }

    /** `log(level)`: the entries at `level`, creating an empty entry when there is none. */
    method Log(level: Level) returns (entries: seq<Values.Value>)
      modifies this
      ensures entries == Entries(old(logs), level)
      ensures logs == old(logs)[level := entries]
    {
      entries := Entries(logs, level);
      logs := logs[level := entries];
    }

    /** The level methods `verbose`, `debug`, `info`, `warn`, `error` and `fatal`. */
    method Write(level: Level, data: Values.Value, blk: Values.Option<() -> Values.Value>)
      modifies this
      ensures logs == Record(old(logs), level, Logged(data, blk))
    {
      var entries := Log(level);
      var v := if blk.Some? then blk.value() else data;
      logs := logs[level := entries + [v]];
    }
  }
}
