/** Recovering the manager at a checkpoint's version is a shift of the version axis. */
module Recovery {
  import opened Arithmetic
  import opened Staleness

  datatype ManagerOp = Enqueue | Submit | Accept | Reject | SetVersion(version: int)

  datatype Managed = Managed(stat: RolloutStat, version: int)

  function RunOps(m: Managed, ops: seq<ManagerOp>): Managed
  {
    if ops == [] then m
    else
      var prev := RunOps(m, ops[..|ops| - 1]);
      match ops[|ops| - 1]
      case Enqueue => prev.(stat := prev.stat.OnEnqueued())
      case Submit => prev.(stat := prev.stat.OnSubmitted())
      case Accept => prev.(stat := prev.stat.OnAccepted())
      case Reject => prev.(stat := prev.stat.OnRejected())
      case SetVersion(v) => prev.(version := v)
  }

  /** The same operations with every version lowered by `v`. */
  function Lowered(ops: seq<ManagerOp>, v: int): seq<ManagerOp>
  {
    seq(|ops|, i requires 0 <= i < |ops| =>
      if ops[i].SetVersion? then SetVersion(ops[i].version - v) else ops[i])
  }

  /** A manager recovered at version `v` reports, after any operations, the capacity that a
  manager started from scratch reports for the same operations at versions lowered by `v`. */
  lemma {:induction false} RecoveryIsAShift(l: Limits, before: RolloutStat, v: int, ops: seq<ManagerOp>)
    requires before.accepted == 0
    ensures
      var recovered := RunOps(Managed(before.OnVersionRecovered(l, v), v), ops);
      var scratch := RunOps(Managed(before, 0), Lowered(ops, v));
      && recovered.version == scratch.version + v
      && recovered.stat.running == scratch.stat.running
      && recovered.stat.accepted == scratch.stat.accepted + v * l.Batch()
      && Capacity(l, recovered.stat, recovered.version) == Capacity(l, scratch.stat, scratch.version)
  {
    var n := |ops|;
    if n == 0 {
    } else {
      RecoveryIsAShift(l, before, v, ops[..n - 1]);
      assert Lowered(ops, v)[..n - 1] == Lowered(ops[..n - 1], v);
    }
    var scratch := RunOps(Managed(before, 0), Lowered(ops, v));
    MaxSamplesShift(l, scratch.version, v);
  }

  /** What recovery is for: the first burst is bounded as if training had just started. Without the
  callback it would grow with the recovered version. */
  lemma RecoveredBurst(l: Limits, st: RolloutStat, v: int)
    requires st.running == 0
    ensures Capacity(l, st.OnVersionRecovered(l, v), v)
         == Min(l.Concurrency(), (l.maxStaleness + 1) * l.Batch())
    ensures Capacity(l, st.(accepted := 0), v)
         == Min(l.Concurrency(), (l.maxStaleness + 1) * l.Batch() + v * l.Batch())
  {
    MaxSamplesShift(l, 0, v);
  }
}
