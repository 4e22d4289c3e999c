/** Wake-ups: neither the commit thread nor the event loop sleeps through work. */
module PipelineWakeups {
  import opened Wrappers
  import opened Staleness
  import opened Pipeline
  import opened PipelineFrames

  // ---------------------------------------------------------------- the commit thread

  /** The guard of `_get_next_task_for_submission`. */
  ghost predicate InputGuard(c: Config, s: State) {
    !s.paused && Capacity(c.limits, s.stat, s.version) > 0 && s.pending != []
  }

  /** `_has_runner_capacity`. */
  ghost predicate RoomGuard(c: Config, s: State) {
    !s.paused && Capacity(c.limits, s.stat, s.version) > 0 && |s.inputQueue| < c.maxQueueSize
  }

  /** A task is in the runner, or its result has left the runner and its fetch has not notified yet. */
  ghost predicate ResultsInFlight(s: State) {
    || s.inputQueue != [] || s.running != [] || s.outputQueue != []
    || (s.fetch.Collect? && s.fetch.got != []) || s.fetch.Store? || s.fetch.Announce?
  }

  /** The client is inside `pause` or `resume`, before the notify. */
  ghost predicate ClientWillNotify(s: State) {
    s.client.PauseNotify? || s.client.ResumeSignal? || s.client.ResumeNotify?
  }

  ghost predicate NotifyDue(s: State) {
    ResultsInFlight(s) || ClientWillNotify(s) || s.h.raised
  }

  ghost predicate NoLostInput(c: Config, s: State) {
    s.commit.WaitsForInput() && InputGuard(c, s) ==> NotifyDue(s)
  }

  ghost predicate NoLostRoom(c: Config, s: State) {
    s.commit.WaitsForRoom() && RoomGuard(c, s) ==> NotifyDue(s)
  }

  ghost predicate NoLostWakeup(c: Config, s: State) { NoLostInput(c, s) && NoLostRoom(c, s) }

  lemma NoLostInputCommit(c: Config, s: State, s': State)
    requires NoLostInput(c, s) && CommitStep(c, s) == Some(s')
    ensures NoLostInput(c, s')
  {
    match s.commit
    case ReadPaused => assert s'.paused == s.paused;
    case ReadCapacity => assert s'.stat == s.stat && s'.version == s.version;
    case TakeInput(_) => assert s'.pending == s.pending || !s'.commit.WaitsForInput();
    case GoSleep => assert s' == s.(commit := Asleep);
    case _ =>
  }

  lemma NoLostRoomCommit(c: Config, s: State, s': State)
    requires NoLostRoom(c, s) && CommitStep(c, s) == Some(s')
    ensures NoLostRoom(c, s')
  {
    match s.commit
    case FullReadPaused => assert s'.paused == s.paused;
    case FullReadCapacity => assert s'.stat == s.stat && s'.version == s.version;
    case FullReadQueue => assert s'.inputQueue == s.inputQueue;
    case FullGoSleep => assert s' == s.(commit := FullAsleep);
    case _ =>
  }

  lemma NoLostWakeupRunner(c: Config, s: State, a: RunnerAction, s': State)
    requires NoLostWakeup(c, s) && RunnerStep(c, s, a) == Some(s')
    ensures NoLostWakeup(c, s')
  {
    RunnerFrame(c, s, a, s');
    RunnerKeepsResults(c, s, a, s');
  }

  /** The loop never empties the pipeline, and its reports change the counters only while a task is running. */
  lemma RunnerKeepsResults(c: Config, s: State, a: RunnerAction, s': State)
    requires RunnerStep(c, s, a) == Some(s')
    ensures s.inputQueue == [] && s.running == [] && s.outputQueue == [] ==>
      s'.inputQueue == [] && s'.running == [] && s'.outputQueue == [] && s'.stat == s.stat
    ensures s.inputQueue != [] || s.running != [] || s.outputQueue != [] ==>
      s'.inputQueue != [] || s'.running != [] || s'.outputQueue != []
  {
  }

  /** A fetch asks for more than one result only when that many are queued, and nobody else takes from the
  queue: one that times out with results in hand leaves others behind. */
  ghost predicate FetchCovered(s: State) {
    s.fetch.Collect? ==>
      && |s.fetch.got| < s.fetch.count
      && (s.fetch.count > 1 ==> |s.fetch.got| + |s.outputQueue| >= s.fetch.count)
  }

  lemma CoveredAfterFetch(s: State, s': State)
    requires FetchCovered(s) && (FetchStep(s) == Some(s') || TimeoutStep(s) == Some(s'))
    ensures FetchCovered(s')
  {
  }

  lemma CoveredAfterRunner(c: Config, s: State, a: RunnerAction, s': State)
    requires FetchCovered(s) && RunnerStep(c, s, a) == Some(s')
    ensures FetchCovered(s')
  {
    RunnerFrame(c, s, a, s');
    QueueGrows(c, s, a, s');
  }

  lemma QueueGrows(c: Config, s: State, a: RunnerAction, s': State)
    requires RunnerStep(c, s, a) == Some(s')
    ensures |s'.outputQueue| >= |s.outputQueue|
  {
  }

  lemma {:induction false} FetchIsCovered(c: Config, acts: seq<Action>, s: State)
    requires Run(c, acts) == Some(s)
    ensures FetchCovered(s)
  {
    if acts == [] {
    } else {
      var before := Run(c, acts[..|acts| - 1]).value;
      FetchIsCovered(c, acts[..|acts| - 1], before);
      match acts[|acts| - 1]
      case CommitThread => CommitFrame(c, before, s);
      case RunnerLoop(r) => CoveredAfterRunner(c, before, r, s);
      case FetchThread => CoveredAfterFetch(before, s);
      case FetchTimeout => CoveredAfterFetch(before, s);
      case Client(a) => ClientFrame(before, a, s);
      case SetVersion(v) =>
    }
  }

  lemma NoLostWakeupFetch(c: Config, s: State, s': State)
    requires NoLostWakeup(c, s) && FetchStep(s) == Some(s')
    ensures NoLostWakeup(c, s')
  {
  }

  lemma NoLostWakeupTimeout(c: Config, s: State, s': State)
    requires NoLostWakeup(c, s) && FetchCovered(s) && TimeoutStep(s) == Some(s')
    ensures NoLostWakeup(c, s')
  {
    assert s.fetch.got != [] ==> s.outputQueue != [];
  }

  lemma NoLostWakeupClient(c: Config, s: State, a: ClientAction, s': State)
    requires NoLostWakeup(c, s) && ClientStep(s, a) == Some(s')
    ensures NoLostWakeup(c, s')
  {
    if s.client.Free? {
      NoLostWakeupCall(c, s, a, s');
    } else {
      NoLostWakeupReturn(c, s, a, s');
    }
  }

  lemma NoLostWakeupCall(c: Config, s: State, a: ClientAction, s': State)
    requires NoLostWakeup(c, s) && ClientStep(s, a) == Some(s') && s.client.Free?
    ensures NoLostWakeup(c, s')
  {
  }

  lemma NoLostWakeupReturn(c: Config, s: State, a: ClientAction, s': State)
    requires NoLostWakeup(c, s) && ClientStep(s, a) == Some(s') && !s.client.Free?
    ensures NoLostWakeup(c, s')
  {
  }

  /** No lost wake-up at the producer: in every reachable state in which the commit thread sleeps, or
  has decided to, although its guard holds, a notify is still due. It will come from the client or from
  a result that has not been fetched, even after fetches that timed out and lost results; or the version
  was raised since the last notify, and the next notify of any kind clears that. */
  lemma {:induction false} ProducerWakeup(c: Config, acts: seq<Action>, s: State)
    requires Run(c, acts) == Some(s)
    ensures NoLostWakeup(c, s)
  {
    if acts == [] {
    } else {
      var before := Run(c, acts[..|acts| - 1]).value;
      ProducerWakeup(c, acts[..|acts| - 1], before);
      match acts[|acts| - 1]
      case CommitThread => NoLostInputCommit(c, before, s); NoLostRoomCommit(c, before, s);
      case RunnerLoop(r) => NoLostWakeupRunner(c, before, r, s);
      case FetchThread => NoLostWakeupFetch(c, before, s);
      case FetchTimeout =>
        FetchIsCovered(c, acts[..|acts| - 1], before);
        NoLostWakeupTimeout(c, before, s);
      case Client(a) => NoLostWakeupClient(c, before, a, s);
      case SetVersion(v) =>
    }
  }

  /** The trainer sets the version between `pause()` and `resume()`. */
  ghost predicate FollowsProtocol(c: Config, acts: seq<Action>)
  {
    acts == [] ||
    (var before := Run(c, acts[..|acts| - 1]);
     && FollowsProtocol(c, acts[..|acts| - 1])
     && (acts[|acts| - 1].SetVersion? && before.Some? ==> before.value.paused))
  }

  /** A raised version will be followed by the notify of `resume()`. */
  ghost predicate RaiseCovered(s: State) {
    s.h.raised ==> s.paused || s.client.ResumeSignal? || s.client.ResumeNotify?
  }

  /** Under that protocol the due notify comes from a result in flight or from the client, whatever fetches
  time out. */
  lemma {:induction false} ProducerWakeupUnderProtocol(c: Config, acts: seq<Action>, s: State)
    requires Run(c, acts) == Some(s) && FollowsProtocol(c, acts)
    ensures RaiseCovered(s)
    ensures s.commit.WaitsForInput() && InputGuard(c, s) ==> ResultsInFlight(s) || ClientWillNotify(s)
    ensures s.commit.WaitsForRoom() && RoomGuard(c, s) ==> ResultsInFlight(s) || ClientWillNotify(s)
  {
    ProducerWakeup(c, acts, s);
    if acts == [] {
    } else {
      var before := Run(c, acts[..|acts| - 1]).value;
      ProducerWakeupUnderProtocol(c, acts[..|acts| - 1], before);
      RaiseUnderProtocol(c, before, acts[|acts| - 1], s);
    }
  }

  lemma RaiseUnderProtocol(c: Config, s: State, a: Action, s': State)
    requires Next(c, s, a) == Some(s') && RaiseCovered(s)
    requires a.SetVersion? ==> s.paused
    ensures RaiseCovered(s')
  {
    match a
    case CommitThread => CommitFrame(c, s, s');
    case RunnerLoop(r) => RunnerFrame(c, s, r, s');
    case FetchThread => FetchRaise(s, s');
    case FetchTimeout => FetchRaise(s, s');
    case Client(ca) => ClientRaise(s, ca, s');
    case SetVersion(v) =>
  }

  lemma FetchRaise(s: State, s': State)
    requires FetchStep(s) == Some(s') || TimeoutStep(s) == Some(s')
    requires RaiseCovered(s)
    ensures RaiseCovered(s')
  {
    FetchFrame(s, s');
  }

  lemma ClientRaise(s: State, a: ClientAction, s': State)
    requires ClientStep(s, a) == Some(s') && RaiseCovered(s)
    ensures RaiseCovered(s')
  {
  }

  // ---------------------------------------------------------------- the event loop

  /** A `set()` of the input event is scheduled, or the commit thread is about to schedule one. */
  ghost predicate SetDue(s: State) { s.inputEvent || s.scheduledSets > 0 || s.commit.Signalling? }

  /** Blocked on the event with input in the queue. */
  ghost predicate LoopWakeup(s: State) {
    s.runner.Blocked? && s.inputQueue != [] ==> SetDue(s)
  }

  lemma LoopWakeupCommit(c: Config, s: State, s': State)
    requires LoopWakeup(s) && CommitStep(c, s) == Some(s')
    ensures LoopWakeup(s')
  {
  }

  lemma LoopWakeupRunner(c: Config, s: State, a: RunnerAction, s': State)
    requires LoopWakeup(s) && RunnerStep(c, s, a) == Some(s')
    ensures LoopWakeup(s')
  {
  }

  lemma LoopWakeupClient(s: State, a: ClientAction, s': State)
    requires LoopWakeup(s) && ClientStep(s, a) == Some(s')
    ensures LoopWakeup(s')
  {
  }

  /** Between clearing the event and the second look at the queue nothing is claimed; the second
  look is what makes the invariant hold. */
  lemma {:induction false} RunnerWakeup(c: Config, acts: seq<Action>, s: State)
    requires Run(c, acts) == Some(s)
    ensures LoopWakeup(s)
  {
    if acts == [] {
    } else {
      var before := Run(c, acts[..|acts| - 1]).value;
      RunnerWakeup(c, acts[..|acts| - 1], before);
      match acts[|acts| - 1]
      case CommitThread => LoopWakeupCommit(c, before, s);
      case RunnerLoop(r) => LoopWakeupRunner(c, before, r, s);
      case FetchThread =>
      case FetchTimeout =>
      case Client(a) => LoopWakeupClient(before, a, s);
      case SetVersion(v) =>
    }
  }
}
