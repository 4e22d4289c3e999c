/** Which variables of the pipeline each thread leaves alone. */
module PipelineFrames {
  import opened Wrappers
  import opened Pipeline

  /** A notify may wake the commit thread; nothing else changes its program counter from outside. */
  ghost predicate SameOrWoken(pc: CommitPc, pc': CommitPc) {
    pc' == pc || (pc.Asleep? && pc'.Acquire?) || (pc.FullAsleep? && pc'.FullAcquire?)
  }

  ghost predicate SameOutsideCommit(s: State, s': State) {
    && s'.runner == s.runner && s'.fetch == s.fetch && s'.client == s.client
    && s'.version == s.version && s'.paused == s.paused && s'.clock == s.clock
    && s'.running == s.running && s'.outputQueue == s.outputQueue
    && s'.pendingResults == s.pendingResults && s'.registered == s.registered
  }

  lemma CommitFrame(c: Config, s: State, s': State)
    requires CommitStep(c, s) == Some(s')
    ensures SameOutsideCommit(s, s') && s'.h == s.h.(commits := s'.h.commits)
  {
    if s.commit.HoldsInputLock() {
      CommitGuardFrame(c, s, s');
    } else {
      CommitActionFrame(c, s, s');
    }
  }

  lemma CommitGuardFrame(c: Config, s: State, s': State)
    requires CommitStep(c, s) == Some(s') && s.commit.HoldsInputLock()
    ensures SameOutsideCommit(s, s') && s'.h == s.h
  {
  }

  lemma CommitActionFrame(c: Config, s: State, s': State)
    requires CommitStep(c, s) == Some(s') && !s.commit.HoldsInputLock()
    ensures SameOutsideCommit(s, s') && s'.h == s.h.(commits := s'.h.commits)
  {
  }

  ghost predicate SameOutsideRunner(s: State, s': State) {
    && s'.commit == s.commit && s'.fetch == s.fetch && s'.client == s.client
    && s'.version == s.version && s'.paused == s.paused
    && s'.pending == s.pending && s'.pendingResults == s.pendingResults && s'.registered == s.registered
  }

  lemma RunnerFrame(c: Config, s: State, a: RunnerAction, s': State)
    requires RunnerStep(c, s, a) == Some(s')
    ensures SameOutsideRunner(s, s') && s'.h == s.h.(verdict := s'.h.verdict, harvested := s'.h.harvested)
  {
    match a
    case Proceed(now) => ProceedFrame(s, now, s');
    case _ => TableFrame(c, s, a, s');
  }

  lemma ProceedFrame(s: State, now: int, s': State)
    requires ProceedStep(s, now) == Some(s')
    ensures SameOutsideRunner(s, s') && s'.h == s.h
  {
  }

  lemma TableFrame(c: Config, s: State, a: RunnerAction, s': State)
    requires RunnerStep(c, s, a) == Some(s') && !a.Proceed?
    ensures SameOutsideRunner(s, s') && s'.h == s.h.(verdict := s'.h.verdict, harvested := s'.h.harvested)
  {
  }

  ghost predicate SameOutsideFetch(s: State, s': State) {
    && SameOrWoken(s.commit, s'.commit) && s'.runner == s.runner && s'.client == s.client
    && s'.version == s.version && s'.paused == s.paused && s'.stat == s.stat && s'.clock == s.clock
    && s'.pending == s.pending && s'.registered == s.registered
    && s'.inputQueue == s.inputQueue && s'.active == s.active && s'.running == s.running
    && s'.h.submitted == s.h.submitted && s'.h.commits == s.h.commits
    && s'.h.verdict == s.h.verdict && s'.h.harvested == s.h.harvested && s'.h.delivered == s.h.delivered
  }

  lemma FetchFrame(s: State, s': State)
    requires FetchStep(s) == Some(s') || TimeoutStep(s) == Some(s')
    ensures SameOutsideFetch(s, s')
  {
    if TimeoutStep(s) == Some(s') {
      TimeoutFrame(s, s');
    } else {
      FetchOnlyFrame(s, s');
    }
  }

  lemma FetchOnlyFrame(s: State, s': State)
    requires FetchStep(s) == Some(s')
    ensures SameOutsideFetch(s, s')
  {
    if s.fetch.Announce? {
      AnnounceFrame(s, s');
    } else {
      TakeFrame(s, s');
    }
  }

  lemma AnnounceFrame(s: State, s': State)
    requires FetchStep(s) == Some(s') && s.fetch.Announce?
    ensures SameOutsideFetch(s, s')
  {
  }

  lemma TakeFrame(s: State, s': State)
    requires FetchStep(s) == Some(s') && !s.fetch.Announce?
    ensures SameOutsideFetch(s, s')
  {
  }

  lemma TimeoutFrame(s: State, s': State)
    requires TimeoutStep(s) == Some(s')
    ensures SameOutsideFetch(s, s')
  {
  }

  lemma ClientFrame(s: State, a: ClientAction, s': State)
    requires ClientStep(s, a) == Some(s')
    ensures SameOrWoken(s.commit, s'.commit) && s'.runner == s.runner && s'.fetch == s.fetch
    ensures s'.version == s.version && s'.clock == s.clock
    ensures s'.inputQueue == s.inputQueue && s'.active == s.active && s'.running == s.running
    ensures s'.outputQueue == s.outputQueue
    ensures s'.h.commits == s.h.commits && s'.h.verdict == s.h.verdict
    ensures s'.h.harvested == s.h.harvested && s'.h.lost == s.h.lost
  {
    if s.client.Free? {
      ClientCallFrame(s, a, s');
    } else {
      ClientReturnFrame(s, a, s');
    }
  }

  ghost predicate SameOutsideClient(s: State, s': State) {
    && SameOrWoken(s.commit, s'.commit) && s'.runner == s.runner && s'.fetch == s.fetch
    && s'.version == s.version && s'.clock == s.clock
    && s'.inputQueue == s.inputQueue && s'.active == s.active && s'.running == s.running
    && s'.outputQueue == s.outputQueue
    && s'.h == s.h.(submitted := s'.h.submitted, delivered := s'.h.delivered,
                    raised := s'.h.raised)
  }

  lemma ClientCallFrame(s: State, a: ClientAction, s': State)
    requires ClientStep(s, a) == Some(s') && s.client.Free?
    ensures SameOutsideClient(s, s')
  {
  }

  lemma ClientReturnFrame(s: State, a: ClientAction, s': State)
    requires ClientStep(s, a) == Some(s') && !s.client.Free?
    ensures SameOutsideClient(s, s')
  {
  }

  /** Steps of the other threads leave the runner's queues and tables alone. */
  lemma OtherFrame(c: Config, s: State, a: Action, s': State)
    requires Next(c, s, a) == Some(s') && !a.CommitThread? && !a.RunnerLoop?
    ensures SameOrWoken(s.commit, s'.commit) && s'.runner == s.runner
    ensures s'.inputQueue == s.inputQueue && s'.active == s.active && s'.running == s.running
    ensures s'.h.commits == s.h.commits && s'.h.verdict == s.h.verdict && s'.h.harvested == s.h.harvested
  {
    match a
    case FetchThread => FetchFrame(s, s');
    case FetchTimeout => FetchFrame(s, s');
    case Client(ca) => ClientFrame(s, ca, s');
    case SetVersion(v) =>
  }
}
