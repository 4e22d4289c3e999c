/** What pausing stops: the commit thread enqueues at most the task it had already seen capacity for, and the
event loop starts at most the task it was about to take and then comes to rest. */
module PipelinePause {
  import opened Wrappers
  import opened Tasks
  import opened Pipeline
  import opened PipelineFrames
  import opened PipelineDelivery
  import opened PipelineProgress
  import opened PipelineLiveness

  // ---------------------------------------------------------------- when it is paused

  /** Whether the last call of `pause()` or `resume()` was `pause()`. */
  function PausedLast(acts: seq<Action>): bool {
    if acts == [] then false
    else if acts[|acts| - 1] == Client(Pause) then true
    else if acts[|acts| - 1] == Client(Resume) then false
    else PausedLast(acts[..|acts| - 1])
  }

  lemma OnlyCallsPause(c: Config, s: State, a: Action, s': State)
    requires Next(c, s, a) == Some(s')
    ensures s'.paused == if a == Client(Pause) then true else if a == Client(Resume) then false else s.paused
  {
    match a
    case CommitThread => CommitFrame(c, s, s');
    case RunnerLoop(r) => RunnerFrame(c, s, r, s');
    case FetchThread => FetchFrame(s, s');
    case FetchTimeout => FetchFrame(s, s');
    case Client(ca) => ClientPauses(s, ca, s');
    case SetVersion(v) =>
  }

  lemma ClientPauses(s: State, a: ClientAction, s': State)
    requires ClientStep(s, a) == Some(s')
    ensures s'.paused == if a.Pause? then true else if a.Resume? then false else s.paused
  {
  }

  /** The pipeline is paused exactly from a `pause()` to the next `resume()`. */
  lemma {:induction false} PausedExactly(c: Config, acts: seq<Action>, s: State)
    requires Run(c, acts) == Some(s)
    ensures s.paused == PausedLast(acts)
  {
    if acts == [] {
    } else {
      var before := Run(c, acts[..|acts| - 1]).value;
      PausedExactly(c, acts[..|acts| - 1], before);
      OnlyCallsPause(c, before, acts[|acts| - 1], s);
    }
  }

  ghost predicate NoResume(acts: seq<Action>) { Client(Resume) !in acts }

  // ---------------------------------------------------------------- the commit thread

  /** Past the test of `paused`, with a task that may still be enqueued. */
  predicate PastTheTest(pc: CommitPc) { pc.ReadCapacity? || pc.TakeInput? || pc.Hand? || pc.Registered? }

  function MayStillCommit(pc: CommitPc): nat { if PastTheTest(pc) then 1 else 0 }

  /** Waiting for room after a full queue, short of the test of capacity. */
  predicate BackedOff(pc: CommitPc) {
    pc.Refused? || pc.PutBack? || pc.FullReadPaused? || pc.FullGoSleep? || pc.FullAsleep? || pc.FullAcquire?
  }

  /** `cs'` is `cs` with at most `n` more. */
  ghost predicate AtMostMore(cs: seq<Commit>, cs': seq<Commit>, n: int) { cs <= cs' && |cs'| <= |cs| + n }

  lemma PausedCommitStep(c: Config, s: State, s': State)
    requires s.paused && CommitStep(c, s) == Some(s')
    ensures AtMostMore(s.h.commits, s'.h.commits, MayStillCommit(s.commit) - MayStillCommit(s'.commit))
    ensures BackedOff(s.commit) ==> BackedOff(s'.commit)
  {
  }

  lemma PausedStep(c: Config, s: State, a: Action, s': State)
    requires s.paused && a != Client(Resume) && Next(c, s, a) == Some(s')
    ensures s'.paused
    ensures AtMostMore(s.h.commits, s'.h.commits, MayStillCommit(s.commit) - MayStillCommit(s'.commit))
    ensures BackedOff(s.commit) ==> BackedOff(s'.commit)
  {
    OnlyCallsPause(c, s, a, s');
    match a
    case CommitThread => PausedCommitStep(c, s, s');
    case RunnerLoop(r) => RunnerFrame(c, s, r, s');
    case _ => OtherFrame(c, s, a, s');
  }

  /** Until `resume()` a paused pipeline enqueues at most one task, and none if the commit thread has not passed
  the test of `paused`, however the threads go on. A thread that waits for room does not go on either. */
  lemma {:induction false} PauseStopsCommits(c: Config, s: State, acts: seq<Action>, s': State)
    requires s.paused && NoResume(acts) && RunFrom(c, s, acts) == Some(s')
    ensures s'.paused
    ensures AtMostMore(s.h.commits, s'.h.commits, MayStillCommit(s.commit) - MayStillCommit(s'.commit))
    ensures AtMostMore(s.h.commits, s'.h.commits, 1)
    ensures !PastTheTest(s.commit) ==> s'.h.commits == s.h.commits && !PastTheTest(s'.commit)
    ensures BackedOff(s.commit) ==> BackedOff(s'.commit)
  {
    if acts == [] {
    } else {
      var init, a := acts[..|acts| - 1], acts[|acts| - 1];
      var before := RunFrom(c, s, init).value;
      assert forall x :: x in init ==> x in acts;
      PauseStopsCommits(c, s, init, before);
      PausedStep(c, before, a, s');
    }
  }

  // ---------------------------------------------------------------- the event loop

  /** About to take a task from the input queue. */
  function MayStillTake(pc: RunnerPc): nat { if pc.DrainGet? then 1 else 0 }

  /** The rows of `s'` are rows of `s` and those of the tasks in `started`. */
  ghost predicate RowsFrom(s: State, s': State, started: set<int>) {
    forall t :: t in EntryIds(s'.running) ==> t in EntryIds(s.running) || t in started
  }

  lemma PausedLoopStep(c: Config, s: State, a: RunnerAction, s': State) returns (started: set<int>)
    requires s.paused && RunnerStep(c, s, a) == Some(s')
    ensures RowsFrom(s, s', started) && |started| <= MayStillTake(s.runner) - MayStillTake(s'.runner)
  {
    started := {};
    if a.Pick? {
      assert s'.running == RemoveAt(s.running, a.i) || s'.running == RemoveAt(s.running, a.i) + [s.running[a.i]];
      IdsAmong(s'.running, s.running);
    } else if a.Finish? {
      assert EntryIds(s'.running) == EntryIds(s.running);
    } else if s.runner.DrainGet? && s.inputQueue != [] {
      started := {s.inputQueue[0]};
      TakesOne(s, a, s');
    } else {
      RowsStay(c, s, a, s');
    }
  }

  lemma TakesOne(s: State, a: RunnerAction, s': State)
    requires s.runner.DrainGet? && s.inputQueue != [] && a.Proceed? && ProceedStep(s, a.now) == Some(s')
    ensures RowsFrom(s, s', {s.inputQueue[0]}) && !s'.runner.DrainGet?
  {
    if s'.running != s.running {
      assert EntryIds(s'.running) == EntryIds(s.running) + [s.inputQueue[0]];
    }
  }

  lemma RowsStay(c: Config, s: State, a: RunnerAction, s': State)
    requires s.paused && RunnerStep(c, s, a) == Some(s') && (a.Proceed? || a.Callback?)
    requires !(s.runner.DrainGet? && s.inputQueue != [])
    ensures s'.running == s.running && !s'.runner.DrainGet?
  {
  }

  lemma IdsAmong(rows: seq<Entry>, all: seq<Entry>)
    requires forall e :: e in rows ==> e in all
    ensures forall t :: t in EntryIds(rows) ==> t in EntryIds(all)
  {
    forall t | t in EntryIds(rows) ensures t in EntryIds(all) {
      var i :| 0 <= i < |rows| && rows[i].id == t;
      assert rows[i] in rows;
      var j :| 0 <= j < |all| && all[j] == rows[i];
      assert EntryIds(all)[j] == t;
    }
  }

  lemma TakesNothing(c: Config, s: State, a: Action, s': State)
    requires Next(c, s, a) == Some(s') && !a.RunnerLoop?
    ensures s'.runner == s.runner && s'.running == s.running && s'.h.harvested == s.h.harvested
  {
    match a
    case CommitThread => CommitFrame(c, s, s');
    case _ => OtherFrame(c, s, a, s');
  }

  /** Until `resume()` the loop starts at most the one task that it is about to take. */
  lemma {:induction false} PauseStopsStarts(c: Config, s: State, acts: seq<Action>, s': State)
    returns (started: set<int>)
    requires s.paused && NoResume(acts) && RunFrom(c, s, acts) == Some(s')
    ensures s'.paused
    ensures RowsFrom(s, s', started) && |started| <= MayStillTake(s.runner) - MayStillTake(s'.runner)
  {
    started := {};
    if acts == [] {
    } else {
      var init, a := acts[..|acts| - 1], acts[|acts| - 1];
      var before := RunFrom(c, s, init).value;
      assert forall x :: x in init ==> x in acts;
      started := PauseStopsStarts(c, s, init, before);
      OnlyCallsPause(c, before, a, s');
      if a.RunnerLoop? {
        var more := PausedLoopStep(c, before, a.r, s');
        started := started + more;
      } else {
        TakesNothing(c, before, a, s');
      }
    }
  }

  /** Before `resume()` the first queued task can be started. */
  ghost predicate MayStart(c: Config, s: State, t: int) {
    exists later, s' :: NoResume(later) && RunFrom(c, s, later) == Some(s') && t in EntryIds(s'.running)
  }

  lemma QueuedIsNotRunning(c: Config, acts: seq<Action>, s: State)
    requires Run(c, acts) == Some(s) && FreshIds(s) && s.inputQueue != []
    ensures s.inputQueue[0] !in EntryIds(s.running)
  {
    var t := s.inputQueue[0];
    ExactlyOnce(c, acts, s, t);
    assert t in multiset(s.inputQueue);
  }

  lemma LoopStartsIt(c: Config, s: State)
    requires s.runner.DrainGet? && s.inputQueue != [] && s.inputQueue[0] !in EntryIds(s.running)
    ensures MayStart(c, s, s.inputQueue[0])
  {
    var a := RunnerLoop(Proceed(s.clock));
    var s' := Next(c, s, a).value;
    assert [a][..0] == [] && RunFrom(c, s, []) == Some(s);
    assert RunFrom(c, s, [a]) == Some(s');
    LastRow(s.running, Entry(s.inputQueue[0], s.clock, Working));
  }

  /** The documentation of `pause()` says that no new task is started. A queued task is started all the same
  exactly when the loop has already passed the test of `paused` and is about to take it. */
  lemma PausedStartExactly(c: Config, acts: seq<Action>, s: State)
    requires Run(c, acts) == Some(s) && FreshIds(s) && s.paused && s.inputQueue != []
    ensures MayStart(c, s, s.inputQueue[0]) <==> s.runner.DrainGet?
  {
    QueuedIsNotRunning(c, acts, s);
    if s.runner.DrainGet? {
      LoopStartsIt(c, s);
    } else {
      forall later, s' | NoResume(later) && RunFrom(c, s, later) == Some(s')
        ensures s.inputQueue[0] !in EntryIds(s'.running)
      {
        var started := PauseStopsStarts(c, s, later, s');
        assert |started| == 0;
      }
    }
  }

  /** The loop has seen the pause. */
  predicate AtRest(pc: RunnerPc) { pc.Top? || pc.PausedSleep? }

  lemma RestingLoopStep(c: Config, s: State, a: RunnerAction, s': State)
    requires s.paused && AtRest(s.runner) && RunnerStep(c, s, a) == Some(s')
    ensures AtRest(s'.runner) && EntryIds(s'.running) == EntryIds(s.running) && s'.h.harvested == s.h.harvested
  {
  }

  /** Once the loop has come to rest it starts nothing and harvests nothing until `resume()`. */
  lemma {:induction false} RestingLoopHarvestsNothing(c: Config, s: State, acts: seq<Action>, s': State)
    requires s.paused && AtRest(s.runner) && NoResume(acts) && RunFrom(c, s, acts) == Some(s')
    ensures s'.paused && AtRest(s'.runner)
    ensures EntryIds(s'.running) == EntryIds(s.running) && s'.h.harvested == s.h.harvested
  {
    if acts == [] {
    } else {
      var init, a := acts[..|acts| - 1], acts[|acts| - 1];
      var before := RunFrom(c, s, init).value;
      assert forall x :: x in init ==> x in acts;
      RestingLoopHarvestsNothing(c, s, init, before);
      OnlyCallsPause(c, before, a, s');
      if a.RunnerLoop? {
        RestingLoopStep(c, before, a.r, s');
      } else {
        TakesNothing(c, before, a, s');
      }
    }
  }

  /** How many of its own steps the paused loop may need to come to rest. */
  function RestRank(s: State): nat {
    var done := |DoneIds(s.running)|;
    match s.runner
    case Top => 0
    case PausedSleep => 0
    case Dead => 0
    case WaitCheckPaused => 1
    case WaitCheckQueue => 5
    case ClearEvent => 4
    case Recheck => 3
    case Blocked => if s.inputEvent then 2 else 0
    case Harvest(_) => 2 * done
    case Release(_, _) => 2 * done + 1
    case AwaitTasks => 2 * done + 1
    case DrainEnd => 2 * done + 2
    case DrainCheck => 2 * done + 3
    case DrainGet => 2 * done + 4
  }

  /** At rest, stopped for a full output queue, or waiting for a wake-up. */
  ghost predicate Settled(s: State) {
    AtRest(s.runner) || s.runner.Dead? || (s.runner.Blocked? && !s.inputEvent)
  }

  lemma SettlingStep(c: Config, s: State)
    requires LoopSound(s) && AtMostOnce(multiset(EntryIds(s.running))) && s.paused && !Settled(s)
    ensures RunnerStep(c, s, LoopChoice(s)).Some?
    ensures var s' := RunnerStep(c, s, LoopChoice(s)).value;
            s'.paused && (Settled(s') || RestRank(s') < RestRank(s)) && RestRank(s) >= 1
  {
    if s.runner.Harvest? {
      StartStepPick(c, s);
    } else if s.runner.DrainGet? && s.inputQueue != [] {
      StartedRowsAreNotDone(s.running, s.inputQueue[0], s.clock);
    } else {
      SettlingProceed(c, s);
    }
  }

  lemma SettlingProceed(c: Config, s: State)
    requires LoopSound(s) && s.paused && !Settled(s) && !s.runner.Harvest?
    requires s.runner.DrainGet? ==> s.inputQueue == []
    ensures RunnerStep(c, s, LoopChoice(s)).Some?
    ensures var s' := RunnerStep(c, s, LoopChoice(s)).value;
            s'.paused && (Settled(s') || RestRank(s') < RestRank(s)) && RestRank(s) >= 1
  {
  }

  ghost predicate SettledBy(c: Config, s: State, k: nat) {
    LoopAlone(c, s, k).Some? && Settled(LoopAlone(c, s, k).value)
  }

  lemma SettledLater(c: Config, s: State, s': State, k: nat)
    requires RunnerStep(c, s, LoopChoice(s)) == Some(s') && SettledBy(c, s', k)
    ensures SettledBy(c, s, k + 1)
  {
  }

  lemma {:induction false} PausedLoopSettles(c: Config, acts: seq<Action>, s: State) returns (k: nat)
    requires Run(c, acts) == Some(s) && s.paused
    ensures k <= RestRank(s) && SettledBy(c, s, k)
    decreases RestRank(s)
  {
    if Settled(s) {
      k := 0;
      assert LoopAlone(c, s, 0) == Some(s);
    } else {
      LoopFacts(c, acts, s);
      SettlingStep(c, s);
      var a := LoopChoice(s);
      var s' := RunnerStep(c, s, a).value;
      OneMoreAction(c, acts, s, RunnerLoop(a), s');
      if Settled(s') {
        k := 0;
        assert LoopAlone(c, s', 0) == Some(s');
      } else {
        k := PausedLoopSettles(c, acts + [RunnerLoop(a)], s');
      }
      SettledLater(c, s, s', k);
      k := k + 1;
    }
  }

  /** A paused loop comes to rest within as many steps of its own as `RestRank` says, unless it stops for a full
  output queue or waits for a wake-up with nothing running. */
  lemma PausedLoopComesToRest(c: Config, acts: seq<Action>, s: State)
    requires Run(c, acts) == Some(s) && s.paused
    ensures exists k: nat :: k <= RestRank(s) && SettledBy(c, s, k)
    ensures RestRank(s) <= 2 * |s.running| + 5
  {
    var k := PausedLoopSettles(c, acts, s);
    DoneIdsCount(s.running);
  }

  /** How many of its own steps the commit thread may need until it sleeps. */
  function SleepRank(pc: CommitPc): nat {
    match pc
    case Asleep => 0
    case FullAsleep => 0
    case Failed(_, _) => 0
    case GoSleep => 1
    case ReadPaused => 2
    case Acquire => 3
    case Counting(_, _) => 4
    case Signalling(_, _) => 5
    case FullGoSleep => 1
    case FullReadPaused => 2
    case FullAcquire => 3
    case PutBack(_, _) => 3
    case Refused(_, _) => 4
    case FullReadQueue => 4
    case FullReadCapacity => 5
    case Registered(_, _) => 6
    case Hand(_, _) => 7
    case TakeInput(_) => 8
    case ReadCapacity => 9
  }

  predicate Sleeps(pc: CommitPc) { pc.Asleep? || pc.FullAsleep? || pc.Failed? }

  lemma FallsAsleep(c: Config, s: State)
    requires s.paused && !Sleeps(s.commit)
    ensures CommitStep(c, s).Some?
    ensures var s' := CommitStep(c, s).value;
            s'.paused && SleepRank(s'.commit) < SleepRank(s.commit)
  {
  }

  /** A paused commit thread sleeps after at most nine steps of its own, unless it stops for a duplicate id. */
  lemma {:induction false} PausedCommitThreadSleeps(c: Config, s: State) returns (k: nat)
    requires s.paused
    ensures k <= SleepRank(s.commit) <= 9
    ensures CommitAlone(c, s, k).Some? && Sleeps(CommitAlone(c, s, k).value.commit)
    decreases SleepRank(s.commit)
  {
    if Sleeps(s.commit) {
      k := 0;
    } else {
      FallsAsleep(c, s);
      k := PausedCommitThreadSleeps(c, CommitStep(c, s).value);
      k := k + 1;
    }
  }
}
