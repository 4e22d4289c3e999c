/** Capacity control for asynchronous rollouts (areal/infra/staleness_manager.py).

The four counters are a value, `RolloutStat`; every callback is a function on it, and the class
`StalenessManager` updates its field with these functions. The pipeline's state machine uses the
same functions, one per lock section. */
module Staleness {
  import opened Arithmetic

  /** The constructor arguments of the manager. */
  datatype Limits = Limits(maxConcurrent: int, consumerBatch: int, maxStaleness: int) {
    function Concurrency(): int { Max(1, maxConcurrent) }
    function Batch(): int { Max(1, consumerBatch) }
    /** How many samples may exist that were not rejected while the model is at `version`. */
    function MaxSamples(version: int): int { (maxStaleness + version + 1) * Batch() }
    /** How many inputs the trainer keeps enqueued; it uses the raw batch size. */
    function PendingLimit(): int { (maxStaleness + 1) * consumerBatch }
  }

  datatype RolloutStat = RolloutStat(accepted: int, enqueued: int, rejected: int, running: int) {
    function OnEnqueued(): RolloutStat { this.(enqueued := enqueued + 1) }
    function OnSubmitted(): RolloutStat { this.(enqueued := enqueued - 1, running := running + 1) }
    function OnAccepted(): RolloutStat { this.(running := running - 1, accepted := accepted + 1) }
    function OnRejected(): RolloutStat { this.(running := running - 1, rejected := rejected + 1) }
    function OnVersionRecovered(l: Limits, version: int): RolloutStat {
      this.(accepted := version * l.Batch())
    }
  }

  const FRESH := RolloutStat(0, 0, 0, 0)

  function Capacity(l: Limits, st: RolloutStat, version: int): int {
    Min(l.Concurrency() - st.running, l.MaxSamples(version) - (st.accepted + st.running))
  }

  /** The manager itself. Each method is one `with self.lock` section; the version that the
  provider reports at that moment is a parameter. */
  class StalenessManager {
    const limits: Limits
    var stat: RolloutStat

    constructor (limits: Limits)
      ensures this.limits == limits && stat == FRESH
    {
      this.limits := limits;
      stat := FRESH;
    }

    method GetPendingLimit() returns (n: int)
      ensures n == limits.PendingLimit()
    {
      n := (limits.maxStaleness + 1) * limits.consumerBatch;
    }

    method GetCapacity(currentVersion: int) returns (capacity: int)
      ensures capacity == Capacity(limits, stat, currentVersion)
    {
      var concurrencyCapacity := Max(1, limits.maxConcurrent) - stat.running;
      var sampleCnt := stat.accepted + stat.running;
      var consumerBs := Max(1, limits.consumerBatch);
      var stalenessCapacity := (limits.maxStaleness + currentVersion + 1) * consumerBs - sampleCnt;
      capacity := Min(concurrencyCapacity, stalenessCapacity);
    }

    method OnVersionRecovered(version: int)
      modifies this
      ensures stat == old(stat).OnVersionRecovered(limits, version)
    {
      stat := stat.(accepted := version * Max(1, limits.consumerBatch));
    }

    method OnRolloutEnqueued()
      modifies this
      ensures stat == old(stat).OnEnqueued()
    {
      stat := stat.(enqueued := stat.enqueued + 1);
    }

    method OnRolloutSubmitted()
      modifies this
      ensures stat == old(stat).OnSubmitted()
    {
      stat := stat.(enqueued := stat.enqueued - 1);
      stat := stat.(running := stat.running + 1);
    }

    method OnRolloutAccepted()
      modifies this
      ensures stat == old(stat).OnAccepted()
    {
      stat := stat.(running := stat.running - 1);
      stat := stat.(accepted := stat.accepted + 1);
    }

    method OnRolloutRejected()
      modifies this
      ensures stat == old(stat).OnRejected()
    {
      stat := stat.(running := stat.running - 1);
      stat := stat.(rejected := stat.rejected + 1);
    }
  }

  // ---------------------------------------------------------------- arithmetic of the sample limit

  lemma MaxSamplesShift(l: Limits, version: int, v: int)
    ensures l.MaxSamples(version + v) == l.MaxSamples(version) + v * l.Batch()
  {
    var b := l.Batch();
    assert (l.maxStaleness + version + 1 + v) * b == (l.maxStaleness + version + 1) * b + v * b;
  }

  lemma MaxSamplesMonotone(l: Limits, v: int, w: int)
    requires v <= w
    ensures l.MaxSamples(v) <= l.MaxSamples(w)
  {
    MaxSamplesShift(l, v, w - v);
    assert (w - v) * l.Batch() >= 0;
  }
}
