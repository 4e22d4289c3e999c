/** Collecting a batch does not deadlock. */
module PipelineProgress {
  import opened Wrappers
  import opened Staleness
  import opened Tasks
  import opened Pipeline
  import opened PipelineFrames
  import opened PipelineCapacity
  import opened PipelineDelivery
  import opened PipelineWakeups
  import Dispatcher
  import PipelineRunner

  // ---------------------------------------------------------------- where accepted results are

  ghost predicate AcceptedAccounted(c: Config, s: State) {
    s.stat.accepted == c.recovered + CountRows(s.running, Done(true)) + CountAccepted(s.h.harvested)
  }

  lemma AcceptedRunner(c: Config, s: State, a: RunnerAction, s': State)
    requires AcceptedAccounted(c, s) && RunnerStep(c, s, a) == Some(s')
    ensures AcceptedAccounted(c, s')
  {
    if a.Pick? {
      AcceptedPick(c, s, a.i, s');
    } else if a.Finish? {
      AcceptedFinish(c, s, a.i, a.accepted, s');
    } else if a.Proceed? && s'.running != s.running {
      AcceptedStart(c, s, a.now, s');
    } else {
      AcceptsNothing(c, s, a, s');
    }
  }

  lemma AcceptedPick(c: Config, s: State, i: nat, s': State)
    requires AcceptedAccounted(c, s) && RunnerStep(c, s, Pick(i)) == Some(s')
    ensures AcceptedAccounted(c, s')
  {
    var e := s.running[i];
    CountRowsSplit(s.running, i, e, Done(true));
    CountRowsAppend(RemoveAt(s.running, i), [e], Done(true));
    if s'.runner.Dead? {
      assert s'.running == RemoveAt(s.running, i) + [e] && s'.h == s.h && s'.stat == s.stat;
    } else {
      var r := HarvestsOne(c, s, i, s');
      CountAcceptedOne(r);
      assert CountRows([e], Done(true)) == CountAccepted([r]);
      CountAcceptedAppend(s.h.harvested, [r]);
    }
  }

  lemma AcceptedFinish(c: Config, s: State, i: nat, b: bool, s': State)
    requires AcceptedAccounted(c, s) && RunnerStep(c, s, Finish(i, b)) == Some(s')
    ensures AcceptedAccounted(c, s')
  {
    var e := s.running[i].(status := Done(b));
    assert s'.running == s.running[i := e] && s'.h.harvested == s.h.harvested;
    CountRowsSplit(s.running, i, e, Done(true));
  }

  lemma AcceptedStart(c: Config, s: State, now: int, s': State)
    requires AcceptedAccounted(c, s) && RunnerStep(c, s, Proceed(now)) == Some(s') && s'.running != s.running
    ensures AcceptedAccounted(c, s')
  {
    var e := Entry(s.inputQueue[0], now, Working);
    assert s'.running == s.running + [e] && s'.h == s.h && s'.stat == s.stat;
    CountRowsAppend(s.running, [e], Done(true));
  }

  lemma AcceptsNothing(c: Config, s: State, a: RunnerAction, s': State)
    requires RunnerStep(c, s, a) == Some(s') && !a.Pick? && !a.Finish? && s'.running == s.running
    ensures s'.stat == s.stat && s'.h == s.h
  {
  }

  lemma CommitAcceptsNothing(c: Config, s: State, s': State)
    requires CommitStep(c, s) == Some(s')
    ensures s'.stat.accepted == s.stat.accepted
  {
  }

  lemma {:induction false} AcceptedIsAccounted(c: Config, acts: seq<Action>, s: State)
    requires Run(c, acts) == Some(s)
    ensures AcceptedAccounted(c, s)
  {
    if acts == [] {
    } else {
      var before := Run(c, acts[..|acts| - 1]).value;
      AcceptedIsAccounted(c, acts[..|acts| - 1], before);
      match acts[|acts| - 1]
      case CommitThread => CommitFrame(c, before, s); CommitAcceptsNothing(c, before, s);
      case RunnerLoop(r) => AcceptedRunner(c, before, r, s);
      case a => OtherFrame(c, before, a, s); OtherCounts(c, before, a, s);
    }
  }

  // ---------------------------------------------------------------- a quiet pipeline

  /** Nothing is in the runner, on its way into it, or on its way out of it. */
  ghost predicate Quiet(s: State) {
    && !ResultsInFlight(s)
    && s.commit.Held() == [] && !s.commit.Uncounted()
  }

  /** All accepted results that count against the sample limit: recovered, delivered, stored and lost. */
  function AcceptedSoFar(c: Config, s: State): int {
    c.recovered + CountAccepted(Results(s.h.delivered)) + CountAccepted(s.pendingResults) + CountAccepted(s.h.lost)
  }

  lemma QuietCounters(c: Config, acts: seq<Action>, s: State)
    requires Run(c, acts) == Some(s) && FreshIds(s) && Quiet(s) && s.client.Free?
    ensures s.stat.running == 0 && s.stat.accepted == AcceptedSoFar(c, s)
  {
    CountersHold(c, acts, s);
    AcceptedIsAccounted(c, acts, s);
    HarvestIsAccounted(c, acts, s);
    QuietResults(s);
    QuietCount(s.h.harvested, s.pendingResults, Results(s.h.delivered), s.h.lost);
  }

  lemma QuietResults(s: State)
    requires Quiet(s) && s.client.Free?
    ensures AfterRunner(s) == s.pendingResults + Results(s.h.delivered) + s.h.lost
  {
    assert Fetching(s) == [] && InClientHand(s) == [] && s.outputQueue == [];
  }

  lemma QuietCount(harvested: seq<TaskResult>, stored: seq<TaskResult>, delivered: seq<TaskResult>,
                   lost: seq<TaskResult>)
    requires multiset(harvested) == multiset(stored + delivered + lost)
    ensures CountAccepted(harvested) == CountAccepted(stored) + CountAccepted(delivered) + CountAccepted(lost)
  {
    CountAcceptedOfBag(harvested, stored + delivered + lost);
    CountAcceptedAppend(stored + delivered, lost);
    CountAcceptedAppend(stored, delivered);
  }

  /** With nothing in flight there is capacity exactly when the accepted results, whether or not they were
  lost, are fewer than the sample limit. */
  lemma QuietCapacity(c: Config, acts: seq<Action>, s: State)
    requires Run(c, acts) == Some(s) && FreshIds(s) && Quiet(s) && s.client.Free?
    ensures Capacity(c.limits, s.stat, s.version) > 0 <==> AcceptedSoFar(c, s) < c.limits.MaxSamples(s.version)
  {
    QuietCounters(c, acts, s);
  }

  /** The accepted results that may exist beyond those of the batches that the version counts. */
  function Room(l: Limits): int { (l.maxStaleness + 1) * l.Batch() }

  lemma RoomAtEveryVersion(l: Limits, version: int)
    ensures l.MaxSamples(version) == Room(l) + version * l.Batch()
  {
    MaxSamplesShift(l, 0, version);
  }

  /** The accepted results that are missing for one full batch at every version: earlier batches may have been
  smaller, or dynamic ones with rejections. */
  function Missing(c: Config, version: int, consumed: int): int {
    version * c.limits.Batch() - (c.recovered + consumed)
  }

  /** How many accepted results may be lost. `consumed` accepted results belong to earlier batches and
  `collected` to the batch in hand. An incomplete batch can be continued whatever was collected as long as no
  more were lost than there is room beyond the batch, and room grows with what earlier batches lacked; beyond
  that, it cannot be continued once all but one are there. */
  lemma LossTolerance(c: Config, acts: seq<Action>, s: State, batchSize: int, consumed: int, collected: int)
    requires Run(c, acts) == Some(s) && FreshIds(s) && Quiet(s) && s.client.Free?
    requires CountAccepted(Results(s.h.delivered)) == consumed + collected
    ensures var have, lost := collected + CountAccepted(s.pendingResults), CountAccepted(s.h.lost);
            var room := Room(c.limits) + Missing(c, s.version, consumed);
            && (Capacity(c.limits, s.stat, s.version) > 0 <==> have + lost < room)
            && (have < batchSize && lost <= room - batchSize ==> Capacity(c.limits, s.stat, s.version) > 0)
            && (have == batchSize - 1 && lost > room - batchSize ==> Capacity(c.limits, s.stat, s.version) <= 0)
  {
    QuietCapacity(c, acts, s);
    RoomFor(c, s, consumed, collected);
  }

  lemma RoomFor(c: Config, s: State, consumed: int, collected: int)
    requires CountAccepted(Results(s.h.delivered)) == consumed + collected
    ensures AcceptedSoFar(c, s) < c.limits.MaxSamples(s.version) <==>
            collected + CountAccepted(s.pendingResults) + CountAccepted(s.h.lost)
            < Room(c.limits) + Missing(c, s.version, consumed)
  {
    RoomAtEveryVersion(c.limits, s.version);
  }

  /** A pass that finds nothing pending and nothing queued enqueues an input. */
  lemma PassIsPositive(l: Limits, maxQueueSize: int, batchSize: int)
    requires 0 <= l.maxStaleness && 0 < batchSize <= l.consumerBatch && batchSize < maxQueueSize
    ensures Dispatcher.PassSize(l.PendingLimit(), 0, maxQueueSize, 0, batchSize) > 0
  {
    assert (l.maxStaleness + 1) * l.consumerBatch >= l.consumerBatch;
  }

  // ---------------------------------------------------------------- the commit thread moves

  ghost predicate Reserved(s: State, x: int) {
    (s.commit.Registered? || s.commit.Refused?) && s.commit.id == x
  }

  /** Every active id was committed, or the commit thread has just reserved it. */
  ghost predicate ActiveKnown(s: State) {
    forall x :: x in s.active ==> x in CommitIds(s.h.commits) || Reserved(s, x)
  }

  lemma ActiveCommit(c: Config, s: State, s': State)
    requires ActiveKnown(s) && CommitStep(c, s) == Some(s')
    ensures ActiveKnown(s')
  {
    if s.commit.Registered? {
      ActiveEnqueue(c, s, s');
    } else if s.commit.Hand? || s.commit.Refused? {
      ActiveReserve(c, s, s');
    } else {
      PipelineRunner.CommitLeavesRunner(c, s, s');
      CommitEnqueuesNothing(c, s, s');
    }
  }

  lemma ActiveEnqueue(c: Config, s: State, s': State)
    requires ActiveKnown(s) && CommitStep(c, s) == Some(s') && s.commit.Registered?
    ensures ActiveKnown(s')
  {
    assert s'.active == s.active;
    if !c.Full(s.inputQueue) {
      assert CommitIds(s'.h.commits) == CommitIds(s.h.commits) + [s.commit.id];
    }
  }

  lemma ActiveReserve(c: Config, s: State, s': State)
    requires ActiveKnown(s) && CommitStep(c, s) == Some(s') && (s.commit.Hand? || s.commit.Refused?)
    ensures ActiveKnown(s')
  {
    assert s'.h == s.h;
  }

  lemma ActiveRunner(c: Config, s: State, a: RunnerAction, s': State)
    requires ActiveKnown(s) && RunnerStep(c, s, a) == Some(s')
    ensures ActiveKnown(s')
  {
    RunnerFrame(c, s, a, s');
    assert s'.active <= s.active;
  }

  lemma {:induction false} ActiveIsKnown(c: Config, acts: seq<Action>, s: State)
    requires Run(c, acts) == Some(s)
    ensures ActiveKnown(s)
  {
    if acts == [] {
    } else {
      var before := Run(c, acts[..|acts| - 1]).value;
      ActiveIsKnown(c, acts[..|acts| - 1], before);
      match acts[|acts| - 1]
      case CommitThread => ActiveCommit(c, before, s);
      case RunnerLoop(r) => ActiveRunner(c, before, r, s);
      case a => OtherFrame(c, before, a, s);
    }
  }

  ghost predicate NotFailed(s: State) { !s.commit.Failed? }

  /** With fresh ids `runner.submit` never raises for a duplicate, so the commit thread survives. */
  lemma {:induction false} CommitThreadSurvives(c: Config, acts: seq<Action>, s: State)
    requires Run(c, acts) == Some(s) && FreshIds(s)
    ensures NotFailed(s)
  {
    if acts == [] {
    } else {
      var init, a := acts[..|acts| - 1], acts[|acts| - 1];
      var before := Run(c, init).value;
      FreshBefore(c, before, a, s);
      CommitThreadSurvives(c, init, before);
      if a.CommitThread? {
        ActiveIsKnown(c, init, before);
        SubmissionOrder(c, init, before);
        HandIsNew(before);
        SubmitSucceeds(c, before, s);
      } else if a.RunnerLoop? {
        RunnerFrame(c, before, a.r, s);
      } else {
        OtherFrame(c, before, a, s);
      }
    }
  }

  lemma HandIsNew(s: State)
    requires FreshIds(s) && InOrder(s) && ActiveKnown(s)
    ensures s.commit.Hand? ==> s.commit.id !in s.active
  {
    if s.commit.Hand? {
      var x := s.commit.id;
      assert multiset(CommitIds(s.h.commits) + s.commit.Held() + s.pending)[x]
          == multiset(CommitIds(s.h.commits))[x] + multiset(s.commit.Held())[x] + multiset(s.pending)[x];
      assert multiset(s.h.submitted)[x] <= 1;
    }
  }

  lemma SubmitSucceeds(c: Config, s: State, s': State)
    requires CommitStep(c, s) == Some(s') && NotFailed(s)
    requires s.commit.Hand? ==> s.commit.id !in s.active
    ensures NotFailed(s')
  {
  }

  /** `k` steps of the commit thread alone. */
  function CommitAlone(c: Config, s: State, k: nat): Option<State>
    decreases k
  {
    if k == 0 then Some(s)
    else
      match CommitStep(c, s)
      case None => None
      case Some(s') => CommitAlone(c, s', k - 1)
  }

  /** How many steps an awake commit thread is away from a hand that holds a task. */
  function Distance(pc: CommitPc): nat {
    match pc
    case FullAcquire => 8
    case FullReadPaused => 7
    case FullReadCapacity => 6
    case FullReadQueue => 5
    case Acquire => 4
    case ReadPaused => 3
    case ReadCapacity => 2
    case TakeInput(_) => 1
    case _ => 0
  }

  ghost predicate ReadyToTake(c: Config, s: State) {
    InputGuard(c, s) && RoomGuard(c, s) && Distance(s.commit) > 0
  }

  lemma OneStepCloser(c: Config, s: State)
    requires ReadyToTake(c, s)
    ensures CommitStep(c, s).Some?
    ensures var s' := CommitStep(c, s).value;
            if s.commit.TakeInput? then s'.commit == Hand(s.pending[0], s.commit.version)
            else s' == s.(commit := s'.commit) && Distance(s'.commit) == Distance(s.commit) - 1
  {
  }

  lemma {:induction false} TakesTheFirstInput(c: Config, s: State)
    requires ReadyToTake(c, s)
    ensures var r := CommitAlone(c, s, Distance(s.commit));
            r.Some? && r.value.commit.Hand? && r.value.commit.id == s.pending[0]
    decreases Distance(s.commit)
  {
    OneStepCloser(c, s);
    if s.commit.TakeInput? {
    } else {
      TakesTheFirstInput(c, CommitStep(c, s).value);
    }
  }

  /** On its own the commit thread gets hold of an input. */
  ghost predicate TakesAnInput(c: Config, s: State) {
    exists k: nat :: CommitAlone(c, s, k).Some? && CommitAlone(c, s, k).value.commit.Hand?
  }

  /** It has no task and has not seen capacity. */
  ghost predicate EmptyHanded(s: State) {
    s.commit.Held() == [] && !s.commit.Uncounted() && !s.commit.TakeInput?
  }

  lemma StaysEmptyHanded(c: Config, s: State, s': State)
    requires EmptyHanded(s) && Capacity(c.limits, s.stat, s.version) <= 0 && CommitStep(c, s) == Some(s')
    ensures EmptyHanded(s') && s' == s.(commit := s'.commit)
  {
  }

  lemma {:induction false} NothingWithoutCapacity(c: Config, s: State, k: nat)
    requires EmptyHanded(s) && Capacity(c.limits, s.stat, s.version) <= 0
    ensures CommitAlone(c, s, k).Some? ==> !CommitAlone(c, s, k).value.commit.Hand?
    decreases k
  {
    if k == 0 || CommitStep(c, s).None? {
    } else {
      var s' := CommitStep(c, s).value;
      StaysEmptyHanded(c, s, s');
      NothingWithoutCapacity(c, s', k - 1);
    }
  }

  lemma AwakeAndFree(c: Config, s: State)
    requires NoLostWakeup(c, s) && InputGuard(c, s) && RoomGuard(c, s) && !NotifyDue(s) && NotFailed(s)
    requires s.commit.Held() == [] && !s.commit.Uncounted()
    ensures Distance(s.commit) > 0
  {
  }

  lemma GrantMeansCapacity(c: Config, acts: seq<Action>, s: State)
    requires ValidConfig(c) && Run(c, acts) == Some(s) && s.commit.TakeInput? && s.stat.running == 0
    ensures Capacity(c.limits, s.stat, s.version) > 0
  {
    LimitsHold(c, acts, s);
    MaxSamplesMonotone(c.limits, s.commit.version, s.version);
  }

  /** Deadlock freedom of batch collection, exactly. A trainer that follows the protocol waits for results
  while nothing is in flight and the pipeline is not paused. If no input is pending its next pass enqueues
  one. If one is pending, the commit thread takes it if and only if the accepted results, with those that
  timed-out fetches have lost, are fewer than the sample limit; then it needs at most eight steps. */
  lemma BatchCollectionMovesOn(c: Config, acts: seq<Action>, s: State, batchSize: int)
    requires ValidConfig(c) && Run(c, acts) == Some(s) && FreshIds(s) && FollowsProtocol(c, acts)
    requires Quiet(s) && s.client.Free? && !s.paused
    requires 0 <= c.limits.maxStaleness && 0 < batchSize <= c.limits.consumerBatch && batchSize < c.maxQueueSize
    ensures s.pending == [] ==>
      Dispatcher.PassSize(c.limits.PendingLimit(), |s.pending|, c.maxQueueSize, |s.inputQueue|, batchSize) > 0
    ensures s.pending != [] ==> (TakesAnInput(c, s) <==> AcceptedSoFar(c, s) < c.limits.MaxSamples(s.version))
    ensures s.pending != [] && AcceptedSoFar(c, s) < c.limits.MaxSamples(s.version) ==>
      var r := CommitAlone(c, s, Distance(s.commit));
      Distance(s.commit) <= 8 && r.Some? && r.value.commit.Hand? && r.value.commit.id == s.pending[0]
  {
    QuietCounters(c, acts, s);
    QuietCapacity(c, acts, s);
    PassIsPositive(c.limits, c.maxQueueSize, batchSize);
    if s.pending != [] && Capacity(c.limits, s.stat, s.version) > 0 {
      ProducerWakeup(c, acts, s);
      ProducerWakeupUnderProtocol(c, acts, s);
      CommitThreadSurvives(c, acts, s);
      assert InputGuard(c, s) && RoomGuard(c, s);
      AwakeAndFree(c, s);
      TakesTheFirstInput(c, s);
      assert TakesAnInput(c, s);
    } else if s.pending != [] {
      if s.commit.TakeInput? {
        GrantMeansCapacity(c, acts, s);
      }
      forall k: nat ensures CommitAlone(c, s, k).Some? ==> !CommitAlone(c, s, k).value.commit.Hand? {
        NothingWithoutCapacity(c, s, k);
      }
    }
  }

  // ---------------------------------------------------------------- stuck for good

  /** The trainer waits for `need` results, and nothing will bring them. */
  ghost predicate Stuck(c: Config, s: State, need: int) {
    && Capacity(c.limits, s.stat, s.version) <= 0 && EmptyHanded(s)
    && s.inputQueue == [] && s.running == [] && s.outputQueue == []
    && (s.fetch.Collect? ==> s.fetch.got == []) && !s.fetch.Store?
    && |s.pendingResults| < need && !s.client.Drained?
  }

  /** What can happen while the trainer waits for that many: anything but a new version and a wait that asks
  for less. */
  ghost predicate WhileWaiting(a: Action, need: int) {
    && !a.SetVersion?
    && (a.Client? ==> !a.a.WaitForTask? && (a.a.WaitResults? ==> a.a.count >= need))
  }

  lemma StuckStep(c: Config, s: State, a: Action, s': State, need: int)
    requires Stuck(c, s, need) && WhileWaiting(a, need) && Next(c, s, a) == Some(s')
    ensures Stuck(c, s', need) && s'.pendingResults == s.pendingResults && s'.h.delivered == s.h.delivered
  {
    match a
    case CommitThread =>
      CommitFrame(c, s, s');
      StaysEmptyHanded(c, s, s');
    case RunnerLoop(r) =>
      RunnerFrame(c, s, r, s');
      StuckRunner(c, s, r, s', need);
    case FetchThread => StuckFetch(c, s, s', need);
    case FetchTimeout => StuckFetch(c, s, s', need);
    case Client(ca) => StuckClient(c, s, ca, s', need);
    case SetVersion(v) =>
  }

  lemma StuckRunner(c: Config, s: State, a: RunnerAction, s': State, need: int)
    requires Stuck(c, s, need) && RunnerStep(c, s, a) == Some(s')
    ensures s'.inputQueue == [] && s'.running == [] && s'.outputQueue == [] && s'.stat == s.stat
    ensures s'.h.delivered == s.h.delivered
  {
  }

  lemma StuckFetch(c: Config, s: State, s': State, need: int)
    requires Stuck(c, s, need) && (FetchStep(s) == Some(s') || TimeoutStep(s) == Some(s'))
    ensures Stuck(c, s', need) && s'.pendingResults == s.pendingResults && s'.h.delivered == s.h.delivered
  {
    FetchFrame(s, s');
  }

  lemma StuckClient(c: Config, s: State, a: ClientAction, s': State, need: int)
    requires Stuck(c, s, need) && WhileWaiting(Client(a), need) && ClientStep(s, a) == Some(s')
    ensures Stuck(c, s', need) && s'.pendingResults == s.pendingResults && s'.h.delivered == s.h.delivered
  {
    ClientFrame(s, a, s');
  }

  /** The state after more actions. */
  function RunFrom(c: Config, s: State, acts: seq<Action>): Option<State>
  {
    if acts == [] then Some(s)
    else
      match RunFrom(c, s, acts[..|acts| - 1])
      case None => None
      case Some(before) => Next(c, before, acts[|acts| - 1])
  }

  /** It stays stuck: however the threads go on, and however many inputs are enqueued, nothing is delivered. */
  lemma {:induction false} StuckForGood(c: Config, s: State, acts: seq<Action>, s': State, need: int)
    requires Stuck(c, s, need) && RunFrom(c, s, acts) == Some(s')
    requires forall i :: 0 <= i < |acts| ==> WhileWaiting(acts[i], need)
    ensures Stuck(c, s', need) && s'.h.delivered == s.h.delivered
  {
    if acts == [] {
    } else {
      var before := RunFrom(c, s, acts[..|acts| - 1]).value;
      StuckForGood(c, s, acts[..|acts| - 1], before, need);
      StuckStep(c, before, acts[|acts| - 1], s', need);
    }
  }

  /** With nothing in flight and too few results stored, the trainer is stuck exactly when the accepted
  results, with the lost ones, have reached the sample limit. */
  lemma StuckExactly(c: Config, acts: seq<Action>, s: State, need: int)
    requires ValidConfig(c) && Run(c, acts) == Some(s) && FreshIds(s)
    requires Quiet(s) && s.client.Free? && |s.pendingResults| < need
    ensures Stuck(c, s, need) <==> AcceptedSoFar(c, s) >= c.limits.MaxSamples(s.version)
  {
    QuietCounters(c, acts, s);
    QuietCapacity(c, acts, s);
    if s.commit.TakeInput? {
      GrantMeansCapacity(c, acts, s);
    }
  }
}
