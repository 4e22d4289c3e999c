/** The off-policy bound: how much older than the trainer a consumed sample can be. */
module PipelineOffPolicy {
  import opened Wrappers
  import opened Sequences
  import opened Arithmetic
  import opened Staleness
  import opened Tasks
  import opened Pipeline
  import opened PipelineFrames
  import opened PipelineCapacity
  import opened PipelineDelivery

  // ---------------------------------------------------------------- counting verdicts

  /** How many of the tasks `cs` have the verdict `wanted`. */
  function Count(cs: seq<Commit>, verdict: map<int, bool>, wanted: bool): nat {
    if cs == [] then 0
    else
      var x := cs[|cs| - 1].id;
      Count(cs[..|cs| - 1], verdict, wanted) + (if x in verdict && verdict[x] == wanted then 1 else 0)
  }

  lemma {:induction false} CountUnknown(cs: seq<Commit>, verdict: map<int, bool>, x: int, b: bool, wanted: bool)
    requires x !in CommitIds(cs)
    ensures Count(cs, verdict[x := b], wanted) == Count(cs, verdict, wanted)
  {
    if cs == [] {
    } else {
      var n := |cs| - 1;
      assert CommitIds(cs) == CommitIds(cs[..n]) + [cs[n].id];
      CountUnknown(cs[..n], verdict, x, b, wanted);
    }
  }

  /** A first verdict on one of distinct tasks counts once. */
  lemma {:induction false} CountNew(cs: seq<Commit>, verdict: map<int, bool>, x: int, b: bool, wanted: bool)
    requires x in CommitIds(cs) && x !in verdict && AtMostOnce(multiset(CommitIds(cs)))
    ensures Count(cs, verdict[x := b], wanted) == Count(cs, verdict, wanted) + (if b == wanted then 1 else 0)
  {
    var n := |cs| - 1;
    assert CommitIds(cs) == CommitIds(cs[..n]) + [cs[n].id];
    if cs[n].id == x {
      assert multiset(CommitIds(cs))[x] <= 1;
      assert x !in CommitIds(cs[..n]) by {
        assert multiset(CommitIds(cs))[x] == multiset(CommitIds(cs[..n]))[x] + 1;
      }
      CountUnknown(cs[..n], verdict, x, b, wanted);
    } else {
      forall y ensures multiset(CommitIds(cs[..n]))[y] <= 1 {
        assert multiset(CommitIds(cs))[y] <= 1;
      }
      CountNew(cs[..n], verdict, x, b, wanted);
    }
  }

  lemma {:induction false} CountGrows(cs: seq<Commit>, verdict: map<int, bool>, x: int, b: bool, wanted: bool)
    requires x !in verdict
    ensures Count(cs, verdict, wanted) <= Count(cs, verdict[x := b], wanted)
  {
    if cs == [] {
    } else {
      CountGrows(cs[..|cs| - 1], verdict, x, b, wanted);
    }
  }

  lemma {:induction false} CountBoth(cs: seq<Commit>, verdict: map<int, bool>)
    ensures Count(cs, verdict, true) + Count(cs, verdict, false) <= |cs|
  {
    if cs == [] {
    } else {
      CountBoth(cs[..|cs| - 1], verdict);
    }
  }

  // ---------------------------------------------------------------- verdicts in the pipeline

  /** Exactly the finished tasks have a verdict, and their rows and results repeat it. */
  ghost predicate Verdicts(s: State) {
    && (forall x :: x in s.h.verdict ==> x in DoneIds(s.running) || x in Ids(s.h.harvested))
    && (forall e :: e in s.running && e.status.Done? ==> e.id in s.h.verdict && s.h.verdict[e.id] == e.status.accepted)
    && (forall r :: r in s.h.harvested ==> r.id in s.h.verdict && s.h.verdict[r.id] == r.accepted)
  }

  ghost predicate RejectionsCounted(s: State) {
    s.stat.rejected == Count(s.h.commits, s.h.verdict, false)
  }

  /** At the moment of its commit, every task fitted under the limit for its version. */
  ghost predicate Bounded(c: Config, s: State) {
    forall i :: 0 <= i < |s.h.commits| ==>
      c.recovered + i + 1 - Count(s.h.commits[..i], s.h.verdict, false) <= c.limits.MaxSamples(s.h.commits[i].version)
  }

  /** What is known about a reachable state with fresh ids. */
  ghost predicate Known(s: State) { InOrder(s) && CommittedAccounted(s) && FreshIds(s) }

  lemma CommitsDistinct(s: State)
    requires Known(s)
    ensures AtMostOnce(multiset(CommitIds(s.h.commits)))
    ensures forall t :: t in s.commit.Held() ==> t !in CommitIds(s.h.commits)
  {
    var all := CommitIds(s.h.commits) + s.commit.Held() + s.pending;
    forall x ensures multiset(CommitIds(s.h.commits))[x] + multiset(s.commit.Held())[x] <= 1 {
      assert multiset(all)[x] <= 1;
    }
  }

  lemma VerdictsAreCommitted(s: State, x: int)
    requires Known(s) && Verdicts(s) && x in s.h.verdict
    ensures x in CommitIds(s.h.commits)
  {
    if x in DoneIds(s.running) {
      var e :| e in s.running && e.id == x;
      var i :| 0 <= i < |s.running| && s.running[i] == e;
      assert EntryIds(s.running)[i] == x;
    }
    assert x in multiset(CommitIds(s.h.commits));
  }

  /** A task still working has no verdict, and it was committed. */
  lemma WorkingIsOpen(s: State, i: nat)
    requires Known(s) && Verdicts(s) && i < |s.running| && s.running[i].status.Working?
    ensures s.running[i].id !in s.h.verdict && s.running[i].id in CommitIds(s.h.commits)
    ensures forall j :: 0 <= j < |s.running| && j != i ==> s.running[j].id != s.running[i].id
    ensures s.running[i].id !in Ids(s.h.harvested)
  {
    var x := s.running[i].id;
    CommitsDistinct(s);
    assert multiset(CommitIds(s.h.commits))[x] <= 1;
    assert EntryIds(s.running)[i] == x;
    assert x in multiset(CommitIds(s.h.commits));
    forall j | 0 <= j < |s.running| && j != i ensures s.running[j].id != x {
      assert EntryIds(s.running)[j] == s.running[j].id;
      TwoPositions(EntryIds(s.running), i, j);
    }
    forall e | e in s.running && e.status.Done? ensures e.id != x {
      var j :| 0 <= j < |s.running| && s.running[j] == e;
    }
  }


  lemma VerdictsFinish(c: Config, s: State, i: nat, b: bool, s': State)
    requires Known(s) && Verdicts(s) && RejectionsCounted(s) && Bounded(c, s)
    requires RunnerStep(c, s, Finish(i, b)) == Some(s')
    ensures Verdicts(s') && RejectionsCounted(s') && Bounded(c, s')
  {
    var x := s.running[i].id;
    WorkingIsOpen(s, i);
    CommitsDistinct(s);
    RunnerFrame(c, s, Finish(i, b), s');
    assert s'.h == s.h.(verdict := s.h.verdict[x := b]);
    CountNew(s.h.commits, s.h.verdict, x, b, false);
    forall k | 0 <= k < |s.h.commits| ensures
      c.recovered + k + 1 - Count(s.h.commits[..k], s'.h.verdict, false) <= c.limits.MaxSamples(s.h.commits[k].version)
    {
      CountGrows(s.h.commits[..k], s.h.verdict, x, b, false);
    }
    VerdictsAfterFinish(s, i, b, s'.running);
  }

  lemma VerdictsAfterFinish(s: State, i: nat, b: bool, running': seq<Entry>)
    requires Verdicts(s) && i < |s.running| && running' == s.running[i := s.running[i].(status := Done(b))]
    requires forall j :: 0 <= j < |s.running| && j != i ==> s.running[j].id != s.running[i].id
    requires s.running[i].id !in Ids(s.h.harvested) && s.running[i].status.Working?
    ensures Verdicts(s.(running := running', h := s.h.(verdict := s.h.verdict[s.running[i].id := b])))
  {
    var x := s.running[i].id;
    var e' := s.running[i].(status := Done(b));
    assert running'[i] == e';
    forall e | e in s.running && e.status.Done? ensures e in running' {
      var j :| 0 <= j < |s.running| && s.running[j] == e;
      assert running'[j] == e;
    }
    forall r | r in s.h.harvested ensures r.id != x {
      var j :| 0 <= j < |s.h.harvested| && s.h.harvested[j] == r;
      assert Ids(s.h.harvested)[j] == r.id;
    }
  }

  lemma VerdictsPick(c: Config, s: State, i: nat, s': State)
    requires Verdicts(s) && RunnerStep(c, s, Pick(i)) == Some(s')
    ensures Verdicts(s')
  {
    var e := s.running[i];
    var rest := RemoveAt(s.running, i);
    assert s.running == s.running[..i] + [e] + s.running[i + 1..];
    if s'.runner.Dead? {
      assert s'.running == rest + [e] && s'.h == s.h;
    } else {
      var r := TaskResult(e.id, e.createTime, e.status.accepted);
      assert s'.running == rest && s'.h == s.h.(harvested := s.h.harvested + [r]);
      assert Ids(s'.h.harvested) == Ids(s.h.harvested) + [e.id];
    }
    VerdictsMoved(s, s');
  }

  lemma VerdictsMoved(s: State, s': State)
    requires Verdicts(s) && s'.h.verdict == s.h.verdict
    requires forall e :: e in s'.running ==> e in s.running
    requires forall e :: e in s.running && e.status.Done? ==> e in s'.running || e.id in Ids(s'.h.harvested)
    requires Ids(s.h.harvested) <= Ids(s'.h.harvested)
    requires forall r :: r in s'.h.harvested ==>
             r in s.h.harvested || (exists e :: e in s.running && e.id == r.id && e.status == Done(r.accepted))
    ensures Verdicts(s')
  {
    forall x | x in s.h.verdict ensures x in DoneIds(s'.running) || x in Ids(s'.h.harvested) {
      if x in DoneIds(s.running) {
        var e :| e in s.running && e.status.Done? && e.id == x;
      } else {
        var j :| 0 <= j < |Ids(s.h.harvested)| && Ids(s.h.harvested)[j] == x;
        assert Ids(s'.h.harvested)[j] == x;
      }
    }
  }

  lemma VerdictsRunner(c: Config, s: State, a: RunnerAction, s': State)
    requires Known(s) && Verdicts(s) && RejectionsCounted(s) && Bounded(c, s)
    requires RunnerStep(c, s, a) == Some(s')
    ensures Verdicts(s') && RejectionsCounted(s') && Bounded(c, s')
  {
    if a.Finish? {
      VerdictsFinish(c, s, a.i, a.accepted, s');
    } else if a.Pick? {
      VerdictsPick(c, s, a.i, s');
      RunnerFrame(c, s, a, s');
      assert s'.stat == s.stat && s'.h.verdict == s.h.verdict;
    } else {
      RunnerFrame(c, s, a, s');
      NoVerdict(c, s, a, s');
      VerdictsMoved(s, s'.(running := s.running));
      if s'.running != s.running {
        VerdictsStarted(s, s');
      }
    }
  }

  lemma NoVerdict(c: Config, s: State, a: RunnerAction, s': State)
    requires RunnerStep(c, s, a) == Some(s') && (a.Proceed? || a.Callback?)
    ensures s'.stat == s.stat && s'.h == s.h
    ensures s'.running == s.running ||
            (s.inputQueue != [] && s'.running == s.running + [Entry(s.inputQueue[0], s'.clock, Working)])
  {
  }

  lemma VerdictsStarted(s: State, s': State)
    requires Verdicts(s) && s'.h == s.h && s.inputQueue != []
    requires s'.running == s.running + [Entry(s.inputQueue[0], s'.clock, Working)]
    ensures Verdicts(s')
  {
    forall x | x in s.h.verdict ensures x in DoneIds(s'.running) || x in Ids(s'.h.harvested) {
      if x in DoneIds(s.running) {
        var e :| e in s.running && e.status.Done? && e.id == x;
        assert e in s'.running;
      }
    }
  }

  lemma VerdictsCommit(c: Config, s: State, s': State)
    requires Known(s) && Verdicts(s) && RejectionsCounted(s) && Bounded(c, s)
    requires Counters(c, s) && Limited(c, s)
    requires CommitStep(c, s) == Some(s')
    ensures Verdicts(s') && RejectionsCounted(s') && Bounded(c, s')
  {
    CommitFrame(c, s, s');
    if s.commit.Registered? && !c.Full(s.inputQueue) {
      var x, v := s.commit.id, s.commit.version;
      assert s'.h.commits == s.h.commits + [Commit(x, v)] && s'.stat == s.stat;
      CommitBounded(c, s, x, v, s'.h.commits);
    } else {
      CommitEnqueuesNothing(c, s, s');
      CommitRejectsNothing(c, s, s');
    }
  }

  lemma CommitRejectsNothing(c: Config, s: State, s': State)
    requires CommitStep(c, s) == Some(s')
    ensures s'.stat.rejected == s.stat.rejected
  {
  }

  lemma CommitBounded(c: Config, s: State, x: int, v: int, commits': seq<Commit>)
    requires Known(s) && Verdicts(s) && RejectionsCounted(s) && Bounded(c, s)
    requires Counters(c, s) && Limited(c, s)
    requires s.commit == Registered(x, v) && commits' == s.h.commits + [Commit(x, v)]
    ensures Count(commits', s.h.verdict, false) == s.stat.rejected
    ensures forall i :: 0 <= i < |commits'| ==>
      c.recovered + i + 1 - Count(commits'[..i], s.h.verdict, false) <= c.limits.MaxSamples(commits'[i].version)
  {
    var n := |s.h.commits|;
    assert commits'[..n] == s.h.commits;
    CommitsDistinct(s);
    if x in s.h.verdict {
      VerdictsAreCommitted(s, x);
    }
    forall i | 0 <= i < |commits'| ensures
      c.recovered + i + 1 - Count(commits'[..i], s.h.verdict, false) <= c.limits.MaxSamples(commits'[i].version)
    {
      if i < n {
        assert commits'[..i] == s.h.commits[..i];
      } else {
        assert commits'[n] == Commit(x, v);
        assert s.stat.accepted + s.stat.running + 1 <= c.limits.MaxSamples(v);
      }
    }
  }

  lemma VerdictsOther(c: Config, s: State, a: Action, s': State)
    requires Verdicts(s) && RejectionsCounted(s) && Bounded(c, s)
    requires Next(c, s, a) == Some(s') && !a.CommitThread? && !a.RunnerLoop?
    ensures Verdicts(s') && RejectionsCounted(s') && Bounded(c, s')
  {
    OtherFrame(c, s, a, s');
    OtherCounts(c, s, a, s');
  }

  lemma {:induction false} VerdictsHold(c: Config, acts: seq<Action>, s: State)
    requires ValidConfig(c) && Run(c, acts) == Some(s) && FreshIds(s)
    ensures Verdicts(s) && RejectionsCounted(s) && Bounded(c, s)
  {
    if acts == [] {
    } else {
      var init, a := acts[..|acts| - 1], acts[|acts| - 1];
      var before := Run(c, init).value;
      FreshBefore(c, before, a, s);
      VerdictsHold(c, init, before);
      SubmissionOrder(c, init, before);
      CommittedIsAccounted(c, init, before);
      CountersHold(c, init, before);
      LimitsHold(c, init, before);
      match a
      case CommitThread => VerdictsCommit(c, before, s);
      case RunnerLoop(r) => VerdictsRunner(c, before, r, s);
      case _ => VerdictsOther(c, before, a, s);
    }
  }

  // ---------------------------------------------------------------- consumption

  /** The accepted samples in the order in which the trainer got them. */
  function Consumed(ds: seq<Delivery>): seq<Delivery> { Filter(WasAccepted, ds) }

  predicate WasAccepted(d: Delivery) { d.result.accepted }

  lemma ConsumedIsDelivered(ds: seq<Delivery>, n: nat)
    requires n < |Consumed(ds)|
    ensures Consumed(ds)[n] in ds && Consumed(ds)[n].result.accepted
  {
    FilterKeepsExactly(WasAccepted, ds, Consumed(ds)[n]);
  }

  /** Every consumed sample was committed, and its verdict is acceptance. */
  lemma ConsumedWasCommitted(c: Config, acts: seq<Action>, s: State, n: nat)
    requires ValidConfig(c) && Run(c, acts) == Some(s) && FreshIds(s) && n < |Consumed(s.h.delivered)|
    ensures var x := Consumed(s.h.delivered)[n].result.id;
            x in CommitIds(s.h.commits) && x in s.h.verdict && s.h.verdict[x]
  {
    VerdictsHold(c, acts, s);
    SubmissionOrder(c, acts, s);
    CommittedIsAccounted(c, acts, s);
    HarvestIsAccounted(c, acts, s);
    ConsumedIsDelivered(s.h.delivered, n);
    var d := Consumed(s.h.delivered)[n];
    var i :| 0 <= i < |s.h.delivered| && s.h.delivered[i] == d;
    assert Results(s.h.delivered)[i] == d.result;
    assert d.result in multiset(AfterRunner(s));
    assert d.result in multiset(s.h.harvested);
    VerdictsAreCommitted(s, d.result.id);
  }

  /** The position of a task in commit order. */
  function Rank(s: State, x: int): nat
    requires x in CommitIds(s.h.commits)
  {
    IndexOf(CommitIds(s.h.commits), x)
  }

  ghost predicate AllCommitted(s: State) {
    forall m :: 0 <= m < |Consumed(s.h.delivered)| ==>
      var x := Consumed(s.h.delivered)[m].result.id;
      x in CommitIds(s.h.commits) && x in s.h.verdict && s.h.verdict[x]
  }

  // ---------------------------------------------------------------- overtaking

  /** The places of the consumed samples in commit order. */
  function Ranks(s: State): (ranks: seq<nat>)
    requires AllCommitted(s)
    ensures |ranks| == |Consumed(s.h.delivered)|
    ensures forall m :: 0 <= m < |ranks| ==> ranks[m] == Rank(s, Consumed(s.h.delivered)[m].result.id)
  {
    var ds := Consumed(s.h.delivered);
    seq(|ds|, m requires 0 <= m < |ds| => Rank(s, ds[m].result.id))
  }

  /** The samples consumed before the n-th although they were committed after it. */
  ghost function Overtakers(ranks: seq<nat>, n: nat): set<nat>
    requires n < |ranks|
  {
    set m: nat | m < n && ranks[m] > ranks[n]
  }

  ghost predicate DistinctRanks(ranks: seq<nat>) { forall i, j :: 0 <= i < j < |ranks| ==> ranks[i] != ranks[j] }

  ghost function UpTo(n: nat): (r: set<nat>)
    ensures |r| == n && forall m: nat :: m in r <==> m < n
  {
    if n == 0 then {} else UpTo(n - 1) + {n - 1}
  }

  lemma {:induction false} InjectionCount(a: set<nat>, ranks: seq<nat>, b: set<nat>)
    requires DistinctRanks(ranks) && forall m :: m in a ==> m < |ranks| && ranks[m] in b
    ensures |a| <= |b|
    decreases |a|
  {
    if a == {} {
    } else {
      var m :| m in a;
      forall k | k in a - {m} ensures ranks[k] in b - {ranks[m]} {
        assert ranks[k] != ranks[m];
      }
      InjectionCount(a - {m}, ranks, b - {ranks[m]});
    }
  }

  ghost function AcceptedPlaces(cs: seq<Commit>, verdict: map<int, bool>, i: nat): set<nat>
    requires i <= |cs|
  {
    set j: nat | j < i && cs[j].id in verdict && verdict[cs[j].id]
  }

  lemma {:induction false} AcceptedPlacesCount(cs: seq<Commit>, verdict: map<int, bool>, i: nat)
    requires i <= |cs|
    ensures |AcceptedPlaces(cs, verdict, i)| == Count(cs[..i], verdict, true)
  {
    if i == 0 {
      assert AcceptedPlaces(cs, verdict, i) == {};
    } else {
      AcceptedPlacesCount(cs, verdict, i - 1);
      assert cs[..i][..i - 1] == cs[..i - 1];
      var x := cs[i - 1].id;
      assert AcceptedPlaces(cs, verdict, i)
          == AcceptedPlaces(cs, verdict, i - 1) + (if x in verdict && verdict[x] then {i - 1} else {});
    }
  }

  /** At least n minus the overtakers of the n-th sample are accepted and committed before it. */
  lemma AcceptedBefore(s: State, n: nat)
    requires AllCommitted(s) && n < |Ranks(s)| && DistinctRanks(Ranks(s))
    ensures Ranks(s)[n] < |s.h.commits|
    ensures n - |Overtakers(Ranks(s), n)| <= Count(s.h.commits[..Ranks(s)[n]], s.h.verdict, true)
  {
    var ranks, cs := Ranks(s), s.h.commits;
    forall m | 0 <= m <= n ensures ranks[m] < |cs| && cs[ranks[m]].id in s.h.verdict && s.h.verdict[cs[ranks[m]].id] {
      assert CommitIds(cs)[ranks[m]] == cs[ranks[m]].id;
    }
    EarlierCount(ranks, n, AcceptedPlaces(cs, s.h.verdict, ranks[n]));
    AcceptedPlacesCount(cs, s.h.verdict, ranks[n]);
  }

  lemma EarlierCount(ranks: seq<nat>, n: nat, places: set<nat>)
    requires n < |ranks| && DistinctRanks(ranks) && forall m :: 0 <= m < n && ranks[m] < ranks[n] ==> ranks[m] in places
    ensures n - |Overtakers(ranks, n)| <= |places|
  {
    var earlier := set m: nat | m < n && ranks[m] < ranks[n];
    assert UpTo(n) == earlier + Overtakers(ranks, n);
    InjectionCount(earlier, ranks, places);
  }

  // ---------------------------------------------------------------- consumed once

  lemma {:induction false} ConsumedAtMost(ds: seq<Delivery>, t: int)
    ensures multiset(Ids(Results(Consumed(ds))))[t] <= multiset(Ids(Results(ds)))[t]
  {
    if ds == [] {
    } else {
      var init, last := ds[..|ds| - 1], ds[|ds| - 1];
      ConsumedAtMost(init, t);
      assert Ids(Results(ds)) == Ids(Results(init)) + [last.result.id];
      assert Ids(Results(Consumed(init) + [last])) == Ids(Results(Consumed(init))) + [last.result.id];
      assert Consumed(init) + [] == Consumed(init);
    }
  }

  lemma RanksDiffer(c: Config, acts: seq<Action>, s: State)
    requires Run(c, acts) == Some(s) && FreshIds(s) && AllCommitted(s)
    ensures DistinctRanks(Ranks(s))
  {
    var ds, ranks := Consumed(s.h.delivered), Ranks(s);
    var ids := Ids(Results(ds));
    forall i, j | 0 <= i < j < |ranks| ensures ranks[i] != ranks[j] {
      ExactlyOnce(c, acts, s, ids[i]);
      ConsumedAtMost(s.h.delivered, ids[i]);
      TwoPositions(ids, i, j);
      assert ids[i] == ds[i].result.id && ids[j] == ds[j].result.id;
    }
  }

  // ---------------------------------------------------------------- the bound

  /** `ceil(a / b)` */
  function CeilDiv(a: nat, b: nat): nat
    requires b > 0
  {
    (a + b - 1) / b
  }

  /** How many accepted samples are missing for full batches when the n-th one is consumed at this version.
  It is 0 when a version is entered only after as many full batches as it counts. */
  function Shortfall(c: Config, version: int, n: nat): nat {
    Max(0, version * c.limits.Batch() - (c.recovered + n))
  }

  lemma AllConsumedWereCommitted(c: Config, acts: seq<Action>, s: State)
    requires ValidConfig(c) && Run(c, acts) == Some(s) && FreshIds(s)
    ensures AllCommitted(s)
  {
    forall m | 0 <= m < |Consumed(s.h.delivered)|
      ensures var x := Consumed(s.h.delivered)[m].result.id;
              x in CommitIds(s.h.commits) && x in s.h.verdict && s.h.verdict[x]
    {
      ConsumedWasCommitted(c, acts, s, m);
    }
  }

  lemma BatchesFit(l: Limits, w: int, v: int, samples: int, k: nat)
    requires w * l.Batch() <= samples + k && samples + 1 <= l.MaxSamples(v)
    ensures w <= v + l.maxStaleness + CeilDiv(k, l.Batch())
  {
    var batch: nat := l.Batch();
    var q := CeilDiv(k, batch);
    assert q * batch >= k by {
      assert k + batch - 1 == q * batch + (k + batch - 1) % batch;
    }
    var d := l.maxStaleness + v + 1 + q - w;
    assert d * batch == (l.maxStaleness + v + 1) * batch + q * batch - w * batch;
    MulAtLeast(d, batch);
  }

  /** Version `w` is at most `max_staleness` after `v`, and one more for every started batch of `extra` samples. */
  predicate StaleWithin(c: Config, v: int, w: int, extra: nat) {
    w <= v + c.limits.maxStaleness + CeilDiv(extra, c.limits.Batch())
  }

  /** The off-policy bound, for every run. The version at which the n-th accepted sample is consumed exceeds the
  version of its commit by at most `max_staleness`, and one more for every started batch of samples that overtook
  it or are missing for full batches; whatever was rejected and however the threads interleave. */
  lemma OffPolicyBound(c: Config, acts: seq<Action>, s: State, n: nat)
    requires ValidConfig(c) && Run(c, acts) == Some(s) && FreshIds(s)
    requires n < |Consumed(s.h.delivered)|
    ensures AllCommitted(s) && Ranks(s)[n] < |s.h.commits|
    ensures BoundHolds(c, s, n)
  {
    EnoughBefore(c, acts, s, n);
    BoundAt(c, s, n);
  }

  ghost predicate BoundHolds(c: Config, s: State, n: nat)
    requires AllCommitted(s) && n < |Ranks(s)| && Ranks(s)[n] < |s.h.commits|
  {
    var w := Consumed(s.h.delivered)[n].version;
    StaleWithin(c, s.h.commits[Ranks(s)[n]].version, w, |Overtakers(Ranks(s), n)| + Shortfall(c, w, n))
  }

  lemma EnoughBefore(c: Config, acts: seq<Action>, s: State, n: nat)
    requires ValidConfig(c) && Run(c, acts) == Some(s) && FreshIds(s)
    requires n < |Consumed(s.h.delivered)|
    ensures AllCommitted(s) && EnoughKept(c, s, n)
  {
    AllConsumedWereCommitted(c, acts, s);
    VerdictsHold(c, acts, s);
    RanksDiffer(c, acts, s);
    AcceptedBefore(s, n);
    AcceptedFit(c, s, Ranks(s)[n]);
  }

  lemma BoundAt(c: Config, s: State, n: nat)
    requires AllCommitted(s) && n < |Ranks(s)| && EnoughKept(c, s, n)
    ensures BoundHolds(c, s, n)
  {
    var i := Ranks(s)[n];
    MissingFit(c, Consumed(s.h.delivered)[n].version, s.h.commits[i].version, n, |Overtakers(Ranks(s), n)|,
               Count(s.h.commits[..i], s.h.verdict, true));
  }

  /** The accepted samples before the n-th one in commit order: enough of them, and they fitted with it. */
  ghost predicate EnoughKept(c: Config, s: State, n: nat)
    requires AllCommitted(s) && n < |Ranks(s)|
  {
    var i := Ranks(s)[n];
    && i < |s.h.commits|
    && var kept := Count(s.h.commits[..i], s.h.verdict, true);
    && n - |Overtakers(Ranks(s), n)| <= kept
    && c.recovered + kept + 1 <= c.limits.MaxSamples(s.h.commits[i].version)
  }

  /** The samples that were committed before the i-th commit and accepted fitted under its limit with it. */
  lemma AcceptedFit(c: Config, s: State, i: nat)
    requires Bounded(c, s) && i < |s.h.commits|
    ensures c.recovered + Count(s.h.commits[..i], s.h.verdict, true) + 1 <= c.limits.MaxSamples(s.h.commits[i].version)
  {
    CountBoth(s.h.commits[..i], s.h.verdict);
  }

  lemma MissingFit(c: Config, w: int, v: int, n: nat, k: nat, kept: int)
    requires n - k <= kept && c.recovered + kept + 1 <= c.limits.MaxSamples(v)
    ensures StaleWithin(c, v, w, k + Shortfall(c, w, n))
  {
    BatchesFit(c.limits, w, v, c.recovered + n - k, k + Shortfall(c, w, n));
  }

  /** When every version is entered after as many full batches as it counts, only overtakers add to it. */
  lemma OffPolicyBoundOnTime(c: Config, acts: seq<Action>, s: State, n: nat)
    requires ValidConfig(c) && Run(c, acts) == Some(s) && FreshIds(s)
    requires n < |Consumed(s.h.delivered)|
    requires Consumed(s.h.delivered)[n].version * c.limits.Batch() <= c.recovered + n
    ensures AllCommitted(s) && Ranks(s)[n] < |s.h.commits|
    ensures StaleWithin(c, s.h.commits[Ranks(s)[n]].version, Consumed(s.h.delivered)[n].version,
                        |Overtakers(Ranks(s), n)|)
  {
    OffPolicyBound(c, acts, s, n);
  }

  /** The samples up to the n-th are consumed in commit order. */
  ghost predicate InCommitOrder(ranks: seq<nat>, n: nat)
    requires n < |ranks|
  {
    forall m :: 0 < m <= n ==> ranks[m - 1] < ranks[m]
  }

  lemma {:induction false} NobodyOvertakes(ranks: seq<nat>, n: nat, m: nat)
    requires m < n < |ranks| && InCommitOrder(ranks, n)
    ensures ranks[m] < ranks[n]
  {
    if m == n - 1 {
    } else {
      NobodyOvertakes(ranks, n - 1, m);
    }
  }

  lemma CeilOfZero(b: nat)
    requires b > 0
    ensures CeilDiv(0, b) == 0
  {
    DivMod(b - 1, 0, b - 1, b);
  }

  /** For samples consumed in commit order only the missing ones add to it; on time as well, the bound is
  `max_staleness`. */
  lemma OffPolicyBoundInOrder(c: Config, acts: seq<Action>, s: State, n: nat)
    requires ValidConfig(c) && Run(c, acts) == Some(s) && FreshIds(s)
    requires n < |Consumed(s.h.delivered)|
    requires AllCommitted(s) ==> InCommitOrder(Ranks(s), n)
    ensures AllCommitted(s) && Ranks(s)[n] < |s.h.commits|
    ensures var w, v := Consumed(s.h.delivered)[n].version, s.h.commits[Ranks(s)[n]].version;
            && StaleWithin(c, v, w, Shortfall(c, w, n))
            && (w * c.limits.Batch() <= c.recovered + n ==> w <= v + c.limits.maxStaleness)
  {
    OffPolicyBound(c, acts, s, n);
    forall m: nat | m < n ensures Ranks(s)[m] < Ranks(s)[n] {
      NobodyOvertakes(Ranks(s), n, m);
    }
    assert Overtakers(Ranks(s), n) == {};
    CeilOfZero(c.limits.Batch());
  }
}
