/** Per-operator processing latencies of an edge agent. */
module HeaMetricsModel {
  import opened OnlineStats

  const SAMPLES_KEPT: nat := 1000

  /** The latencies recorded for an operator; none before the first. */
  function Of(samples: map<string, seq<real>>, op: string): seq<real> {
    if op in samples then samples[op] else []
  }

  class HeaMetrics {
    var latencySamples: map<string, seq<real>>
    /** Every latency ever recorded. */
    ghost var recorded: map<string, seq<real>>

    /** Each deque holds the last thousand of the recorded latencies. */
    ghost predicate Valid()
      reads this
    {
      && latencySamples.Keys == recorded.Keys
      && forall op :: op in recorded ==> recorded[op] != [] && latencySamples[op] == LastN(recorded[op], SAMPLES_KEPT)
    }

    constructor ()
      ensures Valid() && recorded == map[]
    {
      latencySamples, recorded := map[], map[];
    }

    method RecordLatency(op: string, latencyMs: real)
      requires Valid()
      modifies this
      ensures Valid()
      ensures recorded == old(recorded)[op := Of(old(recorded), op) + [latencyMs]]
    {
      if op !in latencySamples {
        latencySamples := latencySamples[op := []];
      }
      PushKeepsLast(Of(recorded, op), latencyMs, SAMPLES_KEPT);
      latencySamples := latencySamples[op := Push(latencySamples[op], latencyMs, SAMPLES_KEPT)];
      recorded := recorded[op := Of(recorded, op) + [latencyMs]];
    }

    /**
      For exactly the operators with a recorded latency: the least value that at least 95%
      of the last thousand latencies do not exceed.
     */
    method GetOperatorP95() returns (result: map<string, real>)
      requires Valid()
      ensures result.Keys == recorded.Keys
      ensures forall op :: op in result ==> result[op] in LastN(recorded[op], SAMPLES_KEPT)
      ensures forall op, v {:trigger AtMost(LastN(recorded[op], SAMPLES_KEPT), v)} :: op in result ==>
                (20 * AtMost(LastN(recorded[op], SAMPLES_KEPT), v) >= 19 * |LastN(recorded[op], SAMPLES_KEPT)|
                 <==> result[op] <= v)
    {
      result := map[];
      var left := latencySamples.Keys;
      while left != {}
        invariant left <= latencySamples.Keys
        invariant result.Keys == latencySamples.Keys - left
        invariant forall op :: op in result ==> result[op] == P95(latencySamples[op])
      {
        var op :| op in left;
        left := left - {op};
        if latencySamples[op] != [] {
          result := result[op := P95(latencySamples[op])];
        }
      }
      forall op | op in result
        ensures result[op] in LastN(recorded[op], SAMPLES_KEPT)
        ensures forall v {:trigger AtMost(LastN(recorded[op], SAMPLES_KEPT), v)} ::
                  20 * AtMost(LastN(recorded[op], SAMPLES_KEPT), v) >= 19 * |LastN(recorded[op], SAMPLES_KEPT)|
                  <==> result[op] <= v
      {
        P95IsLeast(latencySamples[op]);
      }
    }
  }
}
