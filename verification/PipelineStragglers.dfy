/** Stragglers: the off-policy bound is reached for every batch size, every positive `max_staleness` and every
number of overtakers, so staleness is unbounded. */
module PipelineStragglers {
  import opened Wrappers
  import opened Arithmetic
  import opened Sequences
  import opened Staleness
  import opened Tasks
  import opened Pipeline
  import opened PipelineCapacity
  import opened PipelineDelivery
  import opened PipelineOffPolicy
  import opened PipelineMacros

  /** Batches of `b`, a maximum staleness of `m`, and as many rollouts at a time as samples fit at version 0. */
  function Setup(b: nat, m: nat): Config
    requires b >= 1 && m >= 1
  {
    Config(Limits((m + 1) * b, b, m), 16, 0, 0)
  }

  /** The straggler: the last task that fits at version 0. */
  function Last(b: nat, m: nat): nat
    requires b >= 1 && m >= 1
  {
    RoomAtZero(b, m);
    (m + 1) * b - 1
  }

  lemma RoomAtZero(b: nat, m: nat)
    requires b >= 1 && m >= 1
    ensures (m + 1) * b == m * b + b && m * b >= b
  {
    MulAtLeast(m, b);
  }

  // ---------------------------------------------------------------- all samples of version 0

  ghost predicate Numbered(h: History, n: nat) {
    |h.submitted| == |h.commits| == n && forall i :: 0 <= i < n ==> h.submitted[i] == h.commits[i].id == i
  }

  ghost predicate ActiveBelow(s: State, n: nat) { forall x :: x in s.active ==> 0 <= x < n }

  /** Tasks 0 to j - 1 were committed at version 0 and are running. */
  ghost predicate Filled(c: Config, s: State, j: nat) {
    && Reachable(c, s) && Calm(s) && s.version == 0 && s.stat.running == j && s.stat.accepted == 0
    && |s.running| == j && (forall i :: 0 <= i < j ==> s.running[i].id == i) && ActiveBelow(s, j)
    && Numbered(s.h, j) && (forall i :: 0 <= i < j ==> s.h.commits[i].version == 0) && s.h.delivered == []
  }

  lemma RoomToFill(b: nat, m: nat, s: State)
    requires b >= 1 && m >= 1 && s.version == 0 && s.stat.accepted == 0 && s.stat.running <= Last(b, m)
    ensures Capacity(Setup(b, m).limits, s.stat, s.version) > 0
  {
    RoomAtZero(b, m);
  }

  lemma OneMoreFilled(s: State, s': State, j: nat)
    requires Added(s, j, s') && s.version == 0 && s.stat.running == j && s.stat.accepted == 0 && s.h.delivered == []
    requires |s.running| == j && (forall i :: 0 <= i < j ==> s.running[i].id == i) && ActiveBelow(s, j)
    requires Numbered(s.h, j) && (forall i :: 0 <= i < j ==> s.h.commits[i].version == 0)
    ensures s'.version == 0 && s'.stat.running == j + 1 && s'.stat.accepted == 0 && s'.h.delivered == []
    ensures |s'.running| == j + 1 && (forall i :: 0 <= i < j + 1 ==> s'.running[i].id == i) && ActiveBelow(s', j + 1)
    ensures Numbered(s'.h, j + 1) && (forall i :: 0 <= i < j + 1 ==> s'.h.commits[i].version == 0)
  {
  }

  lemma {:induction false} Fill(b: nat, m: nat, j: nat) returns (s: State)
    requires b >= 1 && m >= 1 && j <= Last(b, m) + 1
    ensures Filled(Setup(b, m), s, j)
  {
    var c := Setup(b, m);
    if j == 0 {
      InitReachable(c);
      s := Init(c);
    } else {
      var before := Fill(b, m, j - 1);
      RoomToFill(b, m, before);
      s := AddOne(c, before, j - 1);
      OneMoreFilled(before, s, j - 1);
    }
  }

  // ---------------------------------------------------------------- consumption on time

  /** The task that is delivered in place `x`: all but the straggler, in order. */
  function Delivered(last: nat, x: nat): nat { if x < last then x else x + 1 }

  ghost predicate DeliveredAs(d: Delivery, t: int, version: int) {
    d.result.accepted && d.result.id == t && d.version == version
  }

  ghost predicate DeliveredOnTime(ds: seq<Delivery>, b: nat, last: nat)
    requires b >= 1
  {
    forall x :: 0 <= x < |ds| ==> DeliveredAs(ds[x], Delivered(last, x), x / b)
  }

  /** How many tasks have been committed when `d` samples were consumed. */
  function Committed(last: nat, d: nat): nat { if d <= last then last + 1 else d + 1 }

  /** `d` samples were consumed, each at the version that counts the full batches before it, and the straggler
  is still running. */
  ghost predicate Going(c: Config, s: State, b: nat, last: nat, d: nat)
    requires b >= 1
  {
    && Reachable(c, s) && Calm(s) && s.version == d / b && s.stat.running == |s.running| && s.stat.accepted == d
    && GoingRows(s.running, last, d) && ActiveBelow(s, Committed(last, d))
    && Numbered(s.h, Committed(last, d)) && s.h.commits[last].version == 0
    && |s.h.delivered| == d && DeliveredOnTime(s.h.delivered, b, last)
  }

  /** First the earlier tasks are running, in order, and the straggler after them; then only the straggler. */
  ghost predicate GoingRows(rows: seq<Entry>, last: nat, d: nat) {
    if d <= last then |rows| == last + 1 - d && forall i :: 0 <= i < |rows| ==> rows[i].id == d + i
    else |rows| == 1 && rows[0].id == last
  }

  lemma NextVersion(d: nat, b: nat)
    requires b >= 1
    ensures d / b <= (d + 1) / b
  {
    var q, r := d / b, d % b;
    assert d == q * b + r;
    if r + 1 < b {
      DivMod(d + 1, q, r + 1, b);
    } else {
      assert (q + 1) * b == q * b + b;
      DivMod(d + 1, q + 1, 0, b);
    }
  }

  lemma OneMoreDelivered(ds: seq<Delivery>, b: nat, last: nat, r: TaskResult)
    requires b >= 1 && DeliveredOnTime(ds, b, last) && r.accepted && r.id == Delivered(last, |ds|)
    ensures DeliveredOnTime(ds + [Delivery(r, |ds| / b)], b, last)
  {
  }

  /** An earlier task is consumed. */
  lemma ConsumeEarlier(c: Config, s: State, b: nat, last: nat, d: nat) returns (s': State)
    requires b >= 1 && c.maxQueueSize > 0 && d < last && Going(c, s, b, last, d)
    ensures Going(c, s', b, last, d + 1)
  {
    var e := s.running[0];
    var s1 := FinishOne(c, s, 0, true);
    OneMoreDelivered(s.h.delivered, b, last, TaskResult(e.id, e.createTime, true));
    assert s1.running == s.running[1..];
    NextVersion(d, b);
    s' := Raise(c, s1, (d + 1) / b);
  }

  lemma RoomToOvertake(b: nat, m: nat, s: State, d: nat)
    requires b >= 1 && m >= 1 && s.version == d / b && s.stat.accepted == d && s.stat.running == 1
    ensures Capacity(Setup(b, m).limits, s.stat, s.version) > 0
  {
    RoomAtZero(b, m);
    var q := d / b;
    assert d == q * b + d % b;
    assert (m + q + 1) * b == m * b + q * b + b;
  }

  /** A task that was committed after the straggler is consumed. */
  lemma Overtake(b: nat, m: nat, s: State, d: nat) returns (s': State)
    requires b >= 1 && m >= 1 && d >= Last(b, m) && Going(Setup(b, m), s, b, Last(b, m), d)
    ensures Going(Setup(b, m), s', b, Last(b, m), d + 1)
  {
    var c, last := Setup(b, m), Last(b, m);
    RoomToOvertake(b, m, s, d);
    assert EntryIds(s.running) == [last];
    var s1 := AddOne(c, s, d + 1);
    var e := s1.running[1];
    var s2 := FinishOne(c, s1, 1, true);
    OneMoreDelivered(s.h.delivered, b, last, TaskResult(e.id, e.createTime, true));
    assert s2.running == s.running;
    NextVersion(d, b);
    s' := Raise(c, s2, (d + 1) / b);
  }

  lemma {:induction false} KeepGoing(b: nat, m: nat, d: nat) returns (s: State)
    requires b >= 1 && m >= 1
    ensures Going(Setup(b, m), s, b, Last(b, m), d)
  {
    if d == 0 {
      s := Fill(b, m, Last(b, m) + 1);
      DivMod(0, 0, 0, b);
    } else {
      var before := KeepGoing(b, m, d - 1);
      if d - 1 < Last(b, m) {
        s := ConsumeEarlier(Setup(b, m), before, b, Last(b, m), d - 1);
      } else {
        s := Overtake(b, m, before, d - 1);
      }
    }
  }

  // ---------------------------------------------------------------- what such a run shows

  /** The straggler was delivered last, after `d` others. */
  ghost predicate Over(s: State, b: nat, last: nat, d: nat)
    requires b >= 1
  {
    && d >= last && Numbered(s.h, d + 1) && s.h.commits[last].version == 0 && |s.h.delivered| == d + 1
    && DeliveredOnTime(s.h.delivered[..d], b, last) && DeliveredAs(s.h.delivered[d], last, d / b)
  }

  lemma FinishStraggler(b: nat, m: nat, d: nat) returns (s: State)
    requires b >= 1 && m >= 1 && d >= Last(b, m)
    ensures Reachable(Setup(b, m), s) && Over(s, b, Last(b, m), d)
  {
    var before := KeepGoing(b, m, d);
    s := FinishOne(Setup(b, m), before, 0, true);
    assert s.h.delivered[..d] == before.h.delivered;
  }

  /** Every sample was consumed at the version that counts the full batches before it. */
  ghost predicate OnTime(c: Config, s: State) {
    forall x :: 0 <= x < |Consumed(s.h.delivered)| ==>
      Consumed(s.h.delivered)[x].version == (c.recovered + x) / c.limits.Batch()
  }

  /** The last sample has `k` overtakers and is as stale as they allow. */
  ghost predicate ReachesTheBound(c: Config, s: State, k: nat) {
    var n := |Consumed(s.h.delivered)| - 1;
    && n >= 0 && AllCommitted(s) && Ranks(s)[n] < |s.h.commits| && |Overtakers(Ranks(s), n)| == k
    && Consumed(s.h.delivered)[n].version
       == s.h.commits[Ranks(s)[n]].version + c.limits.maxStaleness + CeilDiv(k, c.limits.Batch())
  }

  lemma {:induction false} NothingFiltered(ds: seq<Delivery>)
    requires forall x :: 0 <= x < |ds| ==> ds[x].result.accepted
    ensures Consumed(ds) == ds
  {
    if ds == [] {
    } else {
      NothingFiltered(ds[..|ds| - 1]);
      assert ds == ds[..|ds| - 1] + [ds[|ds| - 1]];
    }
  }

  lemma {:induction false} Consecutive(s: seq<int>)
    requires forall i :: 0 <= i < |s| ==> s[i] == i
    ensures AtMostOnce(multiset(s))
    ensures forall x :: x in s <==> 0 <= x < |s|
  {
    if s == [] {
    } else {
      var init, last := s[..|s| - 1], s[|s| - 1];
      Consecutive(init);
      assert s == init + [last];
      forall x ensures multiset(s)[x] <= 1 {
        assert multiset(init)[x] <= 1;
      }
    }
  }

  /** The straggler's delivery, and those before it. */
  lemma OverAt(s: State, b: nat, last: nat, d: nat, x: nat)
    requires b >= 1 && Over(s, b, last, d) && x <= d
    ensures DeliveredAs(s.h.delivered[x], if x == d then last else Delivered(last, x), x / b)
  {
    if x < d {
      assert s.h.delivered[x] == s.h.delivered[..d][x];
    }
  }

  lemma OverIsOnTime(s: State, b: nat, m: nat, d: nat)
    requires b >= 1 && m >= 1 && Over(s, b, Last(b, m), d)
    ensures Consumed(s.h.delivered) == s.h.delivered && FreshIds(s) && OnTime(Setup(b, m), s)
  {
    forall x | 0 <= x < d + 1
      ensures s.h.delivered[x].result.accepted && s.h.delivered[x].version == x / b
    {
      OverAt(s, b, Last(b, m), d, x);
    }
    NothingFiltered(s.h.delivered);
    Consecutive(s.h.submitted);
  }

  /** The rank of a task is its number. */
  lemma OverRanks(s: State, b: nat, last: nat, d: nat)
    requires b >= 1 && Over(s, b, last, d) && AllCommitted(s) && Consumed(s.h.delivered) == s.h.delivered
    ensures |Ranks(s)| == d + 1
    ensures forall x :: 0 <= x < d + 1 ==> Ranks(s)[x] == if x == d then last else Delivered(last, x)
  {
    var ids := CommitIds(s.h.commits);
    forall x | 0 <= x < d + 1 ensures Ranks(s)[x] == if x == d then last else Delivered(last, x) {
      OverAt(s, b, last, d, x);
      var t := if x == d then last else Delivered(last, x);
      assert forall j :: 0 <= j <= t ==> ids[j] == j;
      IndexOfAt(ids, t);
    }
  }

  lemma OverOvertakers(ranks: seq<nat>, last: nat, d: nat)
    requires d >= last && |ranks| == d + 1
    requires forall x :: 0 <= x < d + 1 ==> ranks[x] == if x == d then last else Delivered(last, x)
    ensures |Overtakers(ranks, d)| == d - last
  {
    assert UpTo(d) == UpTo(last) + Overtakers(ranks, d);
    assert UpTo(last) !! Overtakers(ranks, d);
  }

  lemma LastVersion(b: nat, m: nat, k: nat)
    requires b >= 1 && m >= 1
    ensures (Last(b, m) + k) / b == m + CeilDiv(k, b)
  {
    RoomAtZero(b, m);
    var q, r := (k + b - 1) / b, (k + b - 1) % b;
    assert k + b - 1 == q * b + r;
    assert (m + q) * b == m * b + q * b;
    DivMod(Last(b, m) + k, m + q, r, b);
  }

  lemma OverReachesTheBound(s: State, b: nat, m: nat, k: nat)
    requires b >= 1 && m >= 1 && Over(s, b, Last(b, m), Last(b, m) + k) && AllCommitted(s)
    ensures ReachesTheBound(Setup(b, m), s, k)
  {
    var last, d := Last(b, m), Last(b, m) + k;
    OverIsOnTime(s, b, m, d);
    OverRanks(s, b, last, d);
    OverOvertakers(Ranks(s), last, d);
    OverAt(s, b, last, d, d);
    LastVersion(b, m, k);
  }

  lemma SetupIsValid(b: nat, m: nat)
    requires b >= 1 && m >= 1
    ensures var c := Setup(b, m);
            ValidConfig(c) && c.limits.Batch() == b && c.limits.maxStaleness == m
  {
    RoomAtZero(b, m);
  }

  /** For every batch size, every positive `max_staleness` and every `k` there is a run, on time throughout, in
  which a sample with `k` overtakers is exactly as stale as the bound allows. So a slow sample can be consumed
  arbitrarily late. */
  lemma TheBoundIsSharp(b: nat, m: nat, k: nat)
    requires b >= 1 && m >= 1
    ensures exists c: Config, s: State ::
      && c.limits.Batch() == b && c.limits.maxStaleness == m && ValidConfig(c)
      && Reachable(c, s) && FreshIds(s) && OnTime(c, s) && ReachesTheBound(c, s, k)
  {
    var c := Setup(b, m);
    SetupIsValid(b, m);
    var s := FinishStraggler(b, m, Last(b, m) + k);
    OverIsOnTime(s, b, m, Last(b, m) + k);
    ReachableByRun(c, s);
    var acts :| Run(c, acts) == Some(s);
    AllConsumedWereCommitted(c, acts, s);
    OverReachesTheBound(s, b, m, k);
  }
}
