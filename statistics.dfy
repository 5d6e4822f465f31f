/** The statistics consumer that the benchmark's consumer function feeds.
    Its aggregation lives outside the modelled code, so it is modelled only
    by the calls it receives, in the order it receives them. */
module Statistics {
  import opened Python

  /** One call into the consumer: `consume_data(ms, value)` adds a raw
      sample, `consume_stat(st, ms, value)` records a finished statistic. */
  datatype Call =
    | Data(ms: string, sample: int)
    | Stat(st: string, ms: string, stat: real)

  /** What running a consumer function did: the calls it made, in order,
      and whether it returned or raised. Calls made before an exception stay
      made. */
  datatype Run = Run(calls: seq<Call>, outcome: Result<()>)

  /** Running `first` and then, if it returned, `second`. */
  function Then(first: Run, second: Run): (r: Run)
    ensures first.outcome.Err? ==> r == first
    ensures first.outcome.Ok? ==> r.calls == first.calls + second.calls && r.outcome == second.outcome
  {
    if first.outcome.Err? then first else Run(first.calls + second.calls, second.outcome)
  }

  class Consumer {
    /** Every call received so far, oldest first. */
    var log: seq<Call>

    constructor ()
      ensures log == []
    {
      log := [];
    }

    method ConsumeData(ms: string, value: int)
      modifies this
      ensures log == old(log) + [Data(ms, value)]
    {
      log := log + [Data(ms, value)];
    }

    method ConsumeStat(st: string, ms: string, value: real)
      modifies this
      ensures log == old(log) + [Stat(st, ms, value)]
    {
      log := log + [Stat(st, ms, value)];
    }
  }
}
