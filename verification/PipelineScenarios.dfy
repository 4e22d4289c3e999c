/** Concrete runs: what the theorems about the pipeline cannot promise, and why their hypotheses are there. */
module PipelineScenarios {
  import opened Wrappers
  import opened Sequences
  import opened Staleness
  import opened Tasks
  import opened Pipeline
  import opened PipelineCapacity
  import opened PipelineDelivery
  import opened PipelineWakeups
  import opened PipelineOffPolicy
  import opened PipelineProgress
  import opened PipelinePause
  import opened PipelineMacros

  // ---------------------------------------------------------------- running reads -1

  /** A workflow can finish before the commit thread counts it, and then `running` reads -1. */
  lemma RunningCanReadMinusOne()
    ensures exists c, s :: ValidConfig(c) && Reachable(c, s) && s.stat.running == -1
  {
    var c := Config(Limits(1, 1, 0), 16, 0, 0);
    InitReachable(c);
    var s := Enqueue(c, Init(c), 7);
    s := Launch(c, s);
    s := Start(c, s);
    s := FinishAndHarvest(c, s, 0, true);
    assert s.stat.running == -1;
  }

  // ---------------------------------------------------------------- a task starts after `pause()`

  /** `pause()` has returned while the event loop was about to take a task, which is then started. */
  lemma ATaskStartsAfterPause()
    ensures exists c, s :: ValidConfig(c) && Reachable(c, s) && FreshIds(s) && s.paused && s.client.Free?
                           && s.inputQueue != [] && MayStart(c, s, s.inputQueue[0])
  {
    var c := Config(Limits(1, 1, 0), 16, 0, 0);
    var s := PausedTooLate(c);
    assert s.h.submitted == [7] && FreshIds(s);
    ReachableByRun(c, s);
    var acts :| Run(c, acts) == Some(s);
    PausedStartExactly(c, acts, s);
  }

  lemma PausedTooLate(c: Config) returns (s: State)
    requires c == Config(Limits(1, 1, 0), 16, 0, 0)
    ensures Reachable(c, s) && s.paused && s.client.Free? && s.runner.DrainGet? && s.inputQueue == [7]
    ensures s.h.submitted == [7]
  {
    InitReachable(c);
    s := Enqueue(c, Init(c), 7);
    s := Launch(c, s);
    s := Step(c, s, RunnerLoop(Proceed(0)));
    s := Step(c, s, RunnerLoop(Proceed(0)));
    s := Step(c, s, Client(Pause));
    s := Step(c, s, Client(Continue));
  }

  // ---------------------------------------------------------------- a lost result

  lemma InitIsCalm(c: Config)
    ensures Reachable(c, Init(c)) && Calm(Init(c))
  {
    InitReachable(c);
  }

  /** Two tasks are running, in a new run with room for two. */
  lemma TwoRunning(c: Config) returns (s: State)
    requires c == Config(Limits(2, 2, 0), 16, 0, 0)
    ensures Reachable(c, s) && Calm(s) && s.version == 0 && s.stat == RolloutStat(0, 0, 0, 2)
    ensures s.running == [Entry(7, 1, Working), Entry(8, 2, Working)]
    ensures s.h.submitted == [7, 8] && s.h.delivered == []
  {
    InitIsCalm(c);
    s := AddOne(c, Init(c), 7);
    assert EntryIds(s.running) == [7];
    s := AddOne(c, s, 8);
  }

  lemma BothHarvested(c: Config, s: State) returns (s': State)
    requires c == Config(Limits(2, 2, 0), 16, 0, 0) && Reachable(c, s) && Calm(s)
    requires s.running == [Entry(7, 1, Working), Entry(8, 2, Working)]
    ensures Reachable(c, s') && s' == s.(running := [], outputQueue := [TaskResult(7, 1, true), TaskResult(8, 2, true)],
                                         active := s.active - {7} - {8}, stat := s.stat.OnAccepted().OnAccepted(),
                                         h := s'.h)
    ensures s'.h.submitted == s.h.submitted && s'.h.delivered == s.h.delivered && s'.h.lost == s.h.lost
  {
    var s1 := Rest(c, s);
    var s2 := FinishAndHarvest(c, s1, 0, true);
    assert s2.running == [Entry(8, 2, Working)] && s2.outputQueue == [TaskResult(7, 1, true)];
    var s3 := Rest(c, s2);
    s' := FinishAndHarvest(c, s3, 0, true);
  }

  lemma TimesOutHalfWay(c: Config, s: State, r: TaskResult, q: TaskResult) returns (s': State)
    requires Reachable(c, s) && s.fetch == FetchPc.Poll && s.outputQueue == [r, q]
    ensures Reachable(c, s')
    ensures s' == s.(outputQueue := [q], h := s.h.(lost := s.h.lost + [r]))
  {
    var s1 := Step(c, s, FetchThread);
    assert s1 == s.(fetch := Collect(2, []));
    assert [r, q][1..] == [q] && [] + [r] == [r];
    var s2 := Step(c, s1, FetchThread);
    assert s2 == s.(fetch := Collect(2, [r]), outputQueue := [q]);
    s' := Step(c, s2, FetchTimeout);
  }

  /** Both results wait in the output queue. The fetch thread asks for two, gets one, and its 50 ms are
  over: the result in its hand is gone. */
  lemma SevenLost(c: Config) returns (s: State)
    requires c == Config(Limits(2, 2, 0), 16, 0, 0)
    ensures Reachable(c, s) && s.outputQueue == [TaskResult(8, 2, true)] && s.stat == RolloutStat(2, 0, 0, 0)
    ensures s.commit.Acquire? && s.client.Free? && s.fetch == FetchPc.Poll && !s.paused && s.version == 0
    ensures s.pending == [] && s.inputQueue == [] && s.running == [] && s.pendingResults == []
    ensures s.h.submitted == [7, 8] && s.h.delivered == []
  {
    s := TwoRunning(c);
    s := BothHarvested(c, s);
    s := TimesOutHalfWay(c, s, TaskResult(7, 1, true), TaskResult(8, 2, true));
  }

  lemma ATimeoutLosesAResult()
    ensures exists c, s, t :: Reachable(c, s) && FreshIds(s) && t in s.h.submitted && Found(s, t) == 0
  {
    var c := Config(Limits(2, 2, 0), 16, 0, 0);
    var s := SevenLost(c);
    SevenIsNowhere(s);
  }

  lemma SevenIsNowhere(s: State)
    requires s.h.submitted == [7, 8] && s.outputQueue == [TaskResult(8, 2, true)] && s.fetch == FetchPc.Poll
    requires s.pending == [] && s.inputQueue == [] && s.running == [] && s.pendingResults == []
    requires s.commit.Acquire? && s.client.Free? && s.h.delivered == []
    ensures FreshIds(s) && 7 in s.h.submitted && Found(s, 7) == 0
  {
    assert Ids(s.outputQueue) == [8];
  }

  // ---------------------------------------------------------------- a trainer that waits forever

  /** The lost result still counts as accepted. With a batch of two at version 0 the other one is stored, the
  sample limit is reached, and the trainer that waits for two results is stuck, with an input pending. */
  lemma ALostResultStrandsTheTrainer()
    ensures exists c, s ::
      && ValidConfig(c) && Reachable(c, s) && FreshIds(s) && s.client.Free? && !s.paused
      && s.pending != [] && s.h.delivered == [] && Stuck(c, s, c.limits.consumerBatch)
  {
    var c := Config(Limits(2, 2, 0), 16, 0, 0);
    var s := SevenLost(c);
    s := FetchOneResult(c, s);
    s := Enqueue(c, s, 9);
    NineStaysPending(c, s);
  }

  lemma NineStaysPending(c: Config, s: State)
    requires c == Config(Limits(2, 2, 0), 16, 0, 0) && s.version == 0
    requires s.stat.accepted == 2 && s.stat.running == 0 && s.commit.Acquire? && s.fetch == FetchPc.Poll
    requires s.inputQueue == [] && s.running == [] && s.outputQueue == [] && |s.pendingResults| == 1 && s.client.Free?
    requires s.h.submitted == [7, 8] + [9]
    ensures Stuck(c, s, 2) && FreshIds(s)
  {
    assert s.commit.Held() == [];
  }

  // ---------------------------------------------------------------- a raised version

  /** With nobody taking results, the commit thread finds no capacity and goes to sleep. */
  lemma FallAsleep(c: Config, s: State) returns (s': State)
    requires Reachable(c, s) && s.commit.Acquire? && !s.paused && Capacity(c.limits, s.stat, s.version) <= 0
    ensures Reachable(c, s') && s' == s.(commit := Asleep)
  {
    var s1 := Step(c, s, CommitThread);
    assert s1 == s.(commit := ReadPaused);
    var s2 := Step(c, s1, CommitThread);
    assert s2 == s.(commit := ReadCapacity);
    var s3 := Step(c, s2, CommitThread);
    assert s3 == s.(commit := GoSleep);
    s' := Step(c, s3, CommitThread);
  }

  /** Raising the version notifies nobody. Task 7 is consumed at version 0 and task 8 has to wait for version
  1; when it comes the guard of the commit thread holds, but the thread sleeps and no notify is due. */
  lemma RaisingTheVersionAloneStrandsTheProducer()
    ensures exists c: Config, s: State ::
      && c.recovered == c.version == 0 && Reachable(c, s) && s.commit.Asleep? && InputGuard(c, s)
      && !ResultsInFlight(s) && !ClientWillNotify(s)
  {
    var c := Config(Limits(1, 1, 0), 16, 0, 0);
    InitIsCalm(c);
    var s := AddOne(c, Init(c), 7);
    s := FinishOne(c, s, 0, true);
    s := Enqueue(c, s, 8);
    s := FallAsleep(c, s);
    s := Raise(c, s, 1);
  }

  // ---------------------------------------------------------------- a batch that fell short

  /** Tasks 7 to 9 as they were delivered: each at the version that is its place, and only 7 rejected. */
  ghost predicate OnePerVersion(ds: seq<Delivery>, n: nat) {
    |ds| == n && forall m :: 0 <= m < n ==>
      ds[m].result.id == 7 + m && ds[m].version == m && (ds[m].result.accepted <==> m > 0)
  }

  /** Dynamic batches of one with a maximum staleness of 0. Task 7 is rejected at version 0, which uses up its
  batch. Tasks 8 and 9 are committed at version 1 and consumed at versions 1 and 2. */
  lemma RejectedThenTwo(c: Config) returns (s: State)
    requires c == Config(Limits(2, 1, 0), 16, 0, 0)
    ensures Reachable(c, s) && s.h.submitted == [7, 8, 9]
    ensures s.h.commits == [Commit(7, 0), Commit(8, 1), Commit(9, 1)] && OnePerVersion(s.h.delivered, 3)
  {
    s := EightAndNine(c);
    s := FinishOne(c, s, 0, true);
    s := Raise(c, s, 2);
    s := FinishOne(c, s, 0, true);
  }

  lemma EightAndNine(c: Config) returns (s: State)
    requires c == Config(Limits(2, 1, 0), 16, 0, 0)
    ensures Reachable(c, s) && Calm(s) && s.version == 1
    ensures |s.running| == 2 && s.running[0].id == 8 && s.running[1].id == 9
    ensures s.h.submitted == [7, 8, 9] && s.h.commits == [Commit(7, 0), Commit(8, 1), Commit(9, 1)]
    ensures OnePerVersion(s.h.delivered, 1)
  {
    s := RejectedFirst(c);
    s := AddOne(c, s, 8);
    assert EntryIds(s.running) == [8];
    s := AddOne(c, s, 9);
  }

  lemma RejectedFirst(c: Config) returns (s: State)
    requires c == Config(Limits(2, 1, 0), 16, 0, 0)
    ensures Reachable(c, s) && Calm(s) && s.version == 1 && s.running == [] && s.active == {}
    ensures s.stat == RolloutStat(0, 0, 1, 0) && s.h.submitted == [7] && s.h.commits == [Commit(7, 0)]
    ensures OnePerVersion(s.h.delivered, 1)
  {
    InitIsCalm(c);
    s := AddOne(c, Init(c), 7);
    s := FinishOne(c, s, 0, false);
    s := Raise(c, s, 1);
  }

  /** Nobody overtakes, but with batches of one the n-th sample is one short for its version, and it is one
  version older than `max_staleness`: as old as the bound allows. */
  ghost predicate StaleInOrder(c: Config, s: State, n: nat) {
    && AllCommitted(s) && n < |Consumed(s.h.delivered)| && Ranks(s)[n] < |s.h.commits| && InCommitOrder(Ranks(s), n)
    && var w, v := Consumed(s.h.delivered)[n].version, s.h.commits[Ranks(s)[n]].version;
    && c.limits.Batch() == Shortfall(c, w, n) == 1 && w == v + c.limits.maxStaleness + 1
  }

  lemma AShortBatchIsTooOld()
    ensures exists c, s, n :: ValidConfig(c) && Reachable(c, s) && FreshIds(s) && StaleInOrder(c, s, n)
  {
    var c := Config(Limits(2, 1, 0), 16, 0, 0);
    var s := RejectedThenTwo(c);
    ThreeFresh(s.h.submitted);
    ReachableAllCommitted(c, s);
    NineIsTooOld(c, s);
  }

  lemma ReachableAllCommitted(c: Config, s: State)
    requires ValidConfig(c) && Reachable(c, s) && FreshIds(s)
    ensures AllCommitted(s)
  {
    ReachableByRun(c, s);
    var acts :| Run(c, acts) == Some(s);
    AllConsumedWereCommitted(c, acts, s);
  }

  lemma NineIsTooOld(c: Config, s: State)
    requires c == Config(Limits(2, 1, 0), 16, 0, 0) && s.h.submitted == [7, 8, 9] && AllCommitted(s)
    requires s.h.commits == [Commit(7, 0), Commit(8, 1), Commit(9, 1)] && OnePerVersion(s.h.delivered, 3)
    ensures FreshIds(s) && StaleInOrder(c, s, 1)
  {
    LastTwoConsumed(s.h.delivered);
    RanksOfLastTwo(s);
    OneShort(c);
    ThreeFresh(s.h.submitted);
    assert Consumed(s.h.delivered)[1].version == 2 && s.h.commits[Ranks(s)[1]].version == 1;
  }

  lemma OneShort(c: Config)
    requires c == Config(Limits(2, 1, 0), 16, 0, 0)
    ensures Shortfall(c, 2, 1) == 1
  {
  }

  lemma ThreeFresh(ids: seq<int>)
    requires ids == [7, 8, 9]
    ensures AtMostOnce(multiset(ids))
  {
  }

  lemma RanksOfLastTwo(s: State)
    requires AllCommitted(s) && s.h.commits == [Commit(7, 0), Commit(8, 1), Commit(9, 1)]
    requires OnePerVersion(s.h.delivered, 3) && Consumed(s.h.delivered) == [s.h.delivered[1], s.h.delivered[2]]
    ensures Ranks(s) == [1, 2]
  {
    assert CommitIds(s.h.commits) == [7, 8, 9];
    IndexOfAt([7, 8, 9], 1);
    IndexOfAt([7, 8, 9], 2);
  }

  lemma LastTwoConsumed(ds: seq<Delivery>)
    requires |ds| == 3 && !ds[0].result.accepted && ds[1].result.accepted && ds[2].result.accepted
    ensures Consumed(ds) == [ds[1], ds[2]]
  {
    assert ds[..2][..1] == ds[..1] && ds[..1][..0] == [];
    assert Consumed(ds[..1]) == [];
    assert Consumed(ds[..2]) == [ds[1]];
  }
}
