/** Without slack: when `max_staleness` is 0 and every version is entered after as many full batches as it
counts, no sample is ever older than the trainer, whoever overtakes it. */
module PipelineNoSlack {
  import opened Wrappers
  import opened Staleness
  import opened Tasks
  import opened Pipeline
  import opened PipelineFrames
  import opened PipelineCapacity
  import opened PipelineDelivery
  import opened PipelineOffPolicy

  // ---------------------------------------------------------------- versions only go up

  /** No commit is newer than the trainer, and no result was delivered at an older version than that of its
  commit. */
  ghost predicate Dated(s: State) {
    && (forall k :: k in s.h.commits ==> k.version <= s.version)
    && (forall d, k :: d in s.h.delivered && k in s.h.commits && k.id == d.result.id ==> k.version <= d.version)
  }

  lemma DatedCommit(c: Config, s: State, s': State)
    requires Dated(s) && Limited(c, s) && DeliveriesCommitted(s)
    requires forall t :: t in s.commit.Held() ==> t !in CommitIds(s.h.commits)
    requires CommitStep(c, s) == Some(s')
    ensures Dated(s')
  {
    CommitFrame(c, s, s');
    if s.commit.Registered? && !c.Full(s.inputQueue) {
      assert s'.h.commits == s.h.commits + [Commit(s.commit.id, s.commit.version)];
    } else {
      CommitEnqueuesNothing(c, s, s');
    }
  }

  /** What was delivered had been committed. */
  ghost predicate DeliveriesCommitted(s: State) {
    forall d :: d in s.h.delivered ==> d.result.id in CommitIds(s.h.commits)
  }

  lemma DeliveredWasCommitted(c: Config, acts: seq<Action>, s: State)
    requires Run(c, acts) == Some(s) && FreshIds(s)
    ensures DeliveriesCommitted(s)
  {
    CommittedIsAccounted(c, acts, s);
    HarvestIsAccounted(c, acts, s);
    forall d | d in s.h.delivered ensures d.result.id in CommitIds(s.h.commits) {
      var i :| 0 <= i < |s.h.delivered| && s.h.delivered[i] == d;
      assert Results(s.h.delivered)[i] == d.result;
      assert d.result in multiset(AfterRunner(s));
      assert d.result in multiset(s.h.harvested);
      var j :| 0 <= j < |s.h.harvested| && s.h.harvested[j] == d.result;
      assert Ids(s.h.harvested)[j] == d.result.id;
      assert d.result.id in multiset(CommitIds(s.h.commits));
    }
  }

  /** What a step of another thread delivers carries the current version. */
  lemma NewDeliveries(c: Config, s: State, a: Action, s': State)
    requires Next(c, s, a) == Some(s') && !a.CommitThread?
    ensures s'.h.commits == s.h.commits && s.version <= s'.version
    ensures forall d :: d in s'.h.delivered ==> d in s.h.delivered || d.version == s.version
  {
    match a
    case RunnerLoop(r) => RunnerFrame(c, s, r, s');
    case FetchThread => FetchFrame(s, s');
    case FetchTimeout => FetchFrame(s, s');
    case Client(ca) =>
      ClientFrame(s, ca, s');
      ClientDelivers(s, ca, s');
    case SetVersion(v) =>
  }

  lemma ClientDelivers(s: State, a: ClientAction, s': State)
    requires ClientStep(s, a) == Some(s')
    ensures forall d :: d in s'.h.delivered ==> d in s.h.delivered || d.version == s.version
  {
  }

  lemma {:induction false} AlwaysDated(c: Config, acts: seq<Action>, s: State)
    requires ValidConfig(c) && Run(c, acts) == Some(s) && FreshIds(s)
    ensures Dated(s)
  {
    if acts == [] {
    } else {
      var init, a := acts[..|acts| - 1], acts[|acts| - 1];
      var before := Run(c, init).value;
      FreshBefore(c, before, a, s);
      AlwaysDated(c, init, before);
      if a.CommitThread? {
        SubmissionOrder(c, init, before);
        CommittedIsAccounted(c, init, before);
        CommitsDistinct(before);
        LimitsHold(c, init, before);
        DeliveredWasCommitted(c, init, before);
        DatedCommit(c, before, s);
      } else {
        NewDeliveries(c, before, a, s);
      }
    }
  }

  // ---------------------------------------------------------------- the samples of one version

  /** The first sample consumed at a version above `w`. */
  ghost predicate FirstAbove(ds: seq<Delivery>, w: int, x: nat) {
    x < |ds| && ds[x].version > w && forall m :: 0 <= m < x ==> ds[m].version <= w
  }

  lemma {:induction false} HasFirstAbove(ds: seq<Delivery>, w: int, n: nat) returns (x: nat)
    requires n < |ds| && ds[n].version > w
    ensures x <= n && FirstAbove(ds, w, x)
    decreases n
  {
    if m: nat :| m < n && ds[m].version > w {
      x := HasFirstAbove(ds, w, m);
    } else {
      x := n;
    }
  }

  /** One of the first `x` samples or the n-th was committed after all the others. */
  lemma {:induction false} LastCommitted(ranks: seq<nat>, x: nat, n: nat) returns (y: nat)
    requires x <= n < |ranks|
    ensures (y < x || y == n) && ranks[n] <= ranks[y] && forall m :: 0 <= m < x ==> ranks[m] <= ranks[y]
    decreases x
  {
    if x == 0 {
      y := n;
    } else {
      y := LastCommitted(ranks, x - 1, n);
      if ranks[y] < ranks[x - 1] {
        y := x - 1;
      }
    }
  }

  /** At least `x` samples are accepted and committed before the last of them and the n-th. */
  lemma AcceptedUpTo(s: State, x: nat, n: nat, y: nat)
    requires AllCommitted(s) && DistinctRanks(Ranks(s)) && x <= n < |Ranks(s)| && (y < x || y == n)
    requires Ranks(s)[n] <= Ranks(s)[y] && forall m :: 0 <= m < x ==> Ranks(s)[m] <= Ranks(s)[y]
    ensures Ranks(s)[y] < |s.h.commits|
    ensures x <= Count(s.h.commits[..Ranks(s)[y]], s.h.verdict, true)
  {
    var ranks, cs := Ranks(s), s.h.commits;
    forall m | 0 <= m <= n ensures ranks[m] < |cs| && cs[ranks[m]].id in s.h.verdict && s.h.verdict[cs[ranks[m]].id] {
      assert CommitIds(cs)[ranks[m]] == cs[ranks[m]].id;
    }
    var all, places := UpTo(x) + {n} - {y}, AcceptedPlaces(cs, s.h.verdict, ranks[y]);
    assert |all| == x;
    forall m | m in all ensures ranks[m] in places {
      assert ranks[m] != ranks[y];
    }
    InjectionCount(all, ranks, places);
    AcceptedPlacesCount(cs, s.h.verdict, ranks[y]);
  }

  /** The version at which a consumed sample was committed. */
  function CommittedAt(s: State, m: nat): int
    requires AllCommitted(s) && m < |Ranks(s)|
  {
    assert CommitIds(s.h.commits)[Ranks(s)[m]] == Consumed(s.h.delivered)[m].result.id;
    s.h.commits[Ranks(s)[m]].version
  }

  lemma ConsumedLater(s: State, m: nat)
    requires Dated(s) && AllCommitted(s) && m < |Ranks(s)|
    ensures CommittedAt(s, m) <= Consumed(s.h.delivered)[m].version
  {
    ConsumedIsDelivered(s.h.delivered, m);
    assert CommitIds(s.h.commits)[Ranks(s)[m]] == Consumed(s.h.delivered)[m].result.id;
    assert s.h.commits[Ranks(s)[m]] in s.h.commits;
  }

  /** All but the n-th of the samples that fit at its version are consumed before that version is left. */
  lemma FirstAboveIsEarly(c: Config, s: State, x: nat, n: nat)
    requires Dated(s) && Bounded(c, s) && AllCommitted(s) && DistinctRanks(Ranks(s))
    requires x <= n < |Ranks(s)| && FirstAbove(Consumed(s.h.delivered), CommittedAt(s, n), x)
    ensures c.recovered + x + 1 <= c.limits.MaxSamples(CommittedAt(s, n))
  {
    var y := LastCommitted(Ranks(s), x, n);
    AcceptedUpTo(s, x, n, y);
    AcceptedFit(c, s, Ranks(s)[y]);
    ConsumedLater(s, y);
    MaxSamplesMonotone(c.limits, CommittedAt(s, y), CommittedAt(s, n));
  }

  /** The first samples, up to the n-th, are consumed on time. */
  ghost predicate OnTimeUpTo(c: Config, s: State, n: nat)
    requires n < |Consumed(s.h.delivered)|
  {
    forall x :: 0 <= x <= n ==> IsOnTime(c.limits, Consumed(s.h.delivered)[x].version, c.recovered + x)
  }

  /** `samples` fill as many batches as the version counts. */
  predicate IsOnTime(l: Limits, version: int, samples: int) { version * l.Batch() <= samples }

  lemma OneTooMany(l: Limits, w: int, version: int, samples: int)
    requires l.maxStaleness == 0 && w < version && samples + 1 <= l.MaxSamples(w)
    ensures !IsOnTime(l, version, samples)
  {
    assert l.MaxSamples(version - 1) == version * l.Batch();
    MaxSamplesMonotone(l, w, version - 1);
  }

  /** Had a sample been consumed later, the first one consumed later would have come too early. */
  lemma NotLater(c: Config, s: State, n: nat)
    requires Dated(s) && Bounded(c, s) && AllCommitted(s) && DistinctRanks(Ranks(s)) && n < |Ranks(s)|
    requires c.limits.maxStaleness == 0 && OnTimeUpTo(c, s, n)
    ensures Consumed(s.h.delivered)[n].version <= CommittedAt(s, n)
  {
    var ds, w := Consumed(s.h.delivered), CommittedAt(s, n);
    if ds[n].version > w {
      var x := HasFirstAbove(ds, w, n);
      FirstAboveIsEarly(c, s, x, n);
      OneTooMany(c.limits, w, ds[x].version, c.recovered + x);
      assert false;
    }
  }

  /** With a `max_staleness` of 0 and versions on time, every sample is consumed at the version at which it was
  committed, although others may overtake it. */
  lemma NeverStaleWithoutSlack(c: Config, acts: seq<Action>, s: State, n: nat)
    requires ValidConfig(c) && Run(c, acts) == Some(s) && FreshIds(s)
    requires n < |Consumed(s.h.delivered)| && c.limits.maxStaleness == 0 && OnTimeUpTo(c, s, n)
    ensures AllCommitted(s) && Consumed(s.h.delivered)[n].version == CommittedAt(s, n)
  {
    AllConsumedWereCommitted(c, acts, s);
    VerdictsHold(c, acts, s);
    RanksDiffer(c, acts, s);
    AlwaysDated(c, acts, s);
    NotLater(c, s, n);
    ConsumedLater(s, n);
  }
}
