/** In which order results reach the trainer: creation times follow the order of commits, and a wait hands out
the earliest of what is there. */
module PipelineOrder {
  import opened Wrappers
  import opened Sequences
  import opened Tasks
  import opened Pipeline
  import opened PipelineFrames
  import opened PipelineDelivery
  import PipelineRunner

  // ---------------------------------------------------------------- the input queue is the tail of the commits

  /** How many tasks the loop has taken from the input queue. */
  function Taken(s: State): int { |s.h.commits| - |s.inputQueue| }

  ghost predicate QueueIsTail(s: State) {
    Taken(s) >= 0 && s.inputQueue == CommitIds(s.h.commits)[Taken(s)..]
  }

  lemma TailCommit(c: Config, s: State, s': State)
    requires QueueIsTail(s) && CommitStep(c, s) == Some(s')
    ensures QueueIsTail(s') && Taken(s') == Taken(s)
  {
    if s.commit.Registered? && !c.Full(s.inputQueue) {
      assert s'.inputQueue == s.inputQueue + [s.commit.id];
      assert CommitIds(s'.h.commits) == CommitIds(s.h.commits) + [s.commit.id];
    } else {
      CommitEnqueuesNothing(c, s, s');
    }
  }

  /** The loop starts the first queued task at this clock reading. */
  ghost predicate Starts(s: State, a: RunnerAction) {
    s.runner.DrainGet? && s.inputQueue != [] && s.inputQueue[0] !in EntryIds(s.running) && a.Proceed?
  }

  lemma LoopKeepsQueue(c: Config, s: State, a: RunnerAction, s': State)
    requires RunnerStep(c, s, a) == Some(s') && !Starts(s, a)
    requires s.runner.DrainGet? && s.inputQueue != [] ==> s.inputQueue[0] !in EntryIds(s.running)
    ensures s'.inputQueue == s.inputQueue && s'.clock == s.clock && s'.h.commits == s.h.commits
  {
  }

  lemma StartTakes(c: Config, s: State, a: RunnerAction, s': State)
    requires RunnerStep(c, s, a) == Some(s') && Starts(s, a)
    ensures s'.inputQueue == s.inputQueue[1..] && s'.clock == a.now >= s.clock && s'.h == s.h
    ensures s'.running == s.running + [Entry(s.inputQueue[0], a.now, Working)]
  {
  }

  // ---------------------------------------------------------------- creation times

  /** Task `id` was started at clock reading `t`. */
  ghost predicate StartedAt(s: State, id: int, t: int) {
    || (exists e :: e in s.running && e.id == id && e.createTime == t)
    || (exists r :: r in s.h.harvested && r.id == id && r.createTime == t)
  }

  /** The tasks of commits `i` and `j`, if they were started at `t` and `u`, were started in this order. */
  ghost predicate InTurn(s: State, i: nat, j: nat, t: int, u: int)
    requires i < |s.h.commits| && j < |s.h.commits|
  {
    StartedAt(s, CommitIds(s.h.commits)[i], t) && StartedAt(s, CommitIds(s.h.commits)[j], u) ==> t <= u
  }

  /** Tasks taken later have later creation times, and none has one in the future. */
  ghost predicate TimesFollow(s: State) {
    && (forall id, t :: StartedAt(s, id, t) ==> t <= s.clock)
    && (forall id, t :: StartedAt(s, id, t) ==> exists i :: 0 <= i < Taken(s) && CommitIds(s.h.commits)[i] == id)
    && (forall i, j, t, u :: 0 <= i < j < Taken(s) ==> InTurn(s, i, j, t, u))
  }

  /** Nothing is started by this step. */
  ghost predicate NothingNew(s: State, s': State) {
    forall id, t :: StartedAt(s', id, t) ==> StartedAt(s, id, t)
  }

  lemma LoopStartsNothing(c: Config, s: State, a: RunnerAction, s': State)
    requires RunnerStep(c, s, a) == Some(s') && !Starts(s, a)
    ensures NothingNew(s, s')
  {
    forall id, t | StartedAt(s', id, t) ensures StartedAt(s, id, t) {
      if a.Finish? {
        FinishKeepsTimes(c, s, a, s', id, t);
      } else if a.Pick? {
        PickKeepsTimes(c, s, a, s', id, t);
      } else {
        assert s'.running == s.running && s'.h == s.h;
      }
    }
  }

  lemma FinishKeepsTimes(c: Config, s: State, a: RunnerAction, s': State, id: int, t: int)
    requires RunnerStep(c, s, a) == Some(s') && a.Finish? && StartedAt(s', id, t)
    ensures StartedAt(s, id, t)
  {
    assert s'.h.harvested == s.h.harvested;
    if e :| e in s'.running && e.id == id && e.createTime == t {
      var i :| 0 <= i < |s'.running| && s'.running[i] == e;
      assert s.running[i].id == id && s.running[i].createTime == t && s.running[i] in s.running;
    }
  }

  lemma PickKeepsTimes(c: Config, s: State, a: RunnerAction, s': State, id: int, t: int)
    requires RunnerStep(c, s, a) == Some(s') && a.Pick? && StartedAt(s', id, t)
    ensures StartedAt(s, id, t)
  {
    var picked := s.running[a.i];
    assert picked in s.running;
    if e :| e in s'.running && e.id == id && e.createTime == t {
      assert s'.running == RemoveAt(s.running, a.i) || s'.running == RemoveAt(s.running, a.i) + [picked];
      assert e in s.running;
    } else {
      var r :| r in s'.h.harvested && r.id == id && r.createTime == t;
      assert s'.h.harvested == s.h.harvested
          || s'.h.harvested == s.h.harvested + [TaskResult(picked.id, picked.createTime, picked.status.accepted)];
      assert r in s.h.harvested || (picked.id == id && picked.createTime == t);
    }
  }

  lemma FollowKept(s: State, s': State)
    requires TimesFollow(s) && QueueIsTail(s) && NothingNew(s, s')
    requires s.h.commits <= s'.h.commits && Taken(s') == Taken(s) && s'.clock == s.clock
    ensures TimesFollow(s')
  {
    assert forall i :: 0 <= i < Taken(s) ==> CommitIds(s'.h.commits)[i] == CommitIds(s.h.commits)[i];
    forall i, j, t, u | 0 <= i < j < Taken(s') ensures InTurn(s', i, j, t, u) {
      assert InTurn(s, i, j, t, u);
    }
  }

  lemma StartedByStep(s: State, s': State, now: int, id: int, t: int)
    requires s.inputQueue != [] && s'.h == s.h && s'.running == s.running + [Entry(s.inputQueue[0], now, Working)]
    requires StartedAt(s', id, t)
    ensures StartedAt(s, id, t) || (id == s.inputQueue[0] && t == now)
  {
    if e :| e in s'.running && e.id == id && e.createTime == t {
      assert e in s.running || e == Entry(s.inputQueue[0], now, Working);
    }
  }

  lemma FollowStart(s: State, s': State, now: int)
    requires TimesFollow(s) && QueueIsTail(s) && AtMostOnce(multiset(CommitIds(s.h.commits)))
    requires s.inputQueue != [] && s'.inputQueue == s.inputQueue[1..] && s'.clock == now >= s.clock && s'.h == s.h
    requires s'.running == s.running + [Entry(s.inputQueue[0], now, Working)]
    ensures TimesFollow(s') && QueueIsTail(s')
  {
    var ids, n := CommitIds(s.h.commits), Taken(s);
    assert ids[n] == s.inputQueue[0];
    forall id, t | StartedAt(s', id, t)
      ensures t <= s'.clock && exists i :: 0 <= i < Taken(s') && CommitIds(s'.h.commits)[i] == id
    {
      StartedByStep(s, s', now, id, t);
      assert id == ids[n] ==> 0 <= n < Taken(s') && CommitIds(s'.h.commits)[n] == id;
    }
    forall i, j, t, u | 0 <= i < j < Taken(s') ensures InTurn(s', i, j, t, u) {
      if StartedAt(s', ids[i], t) && StartedAt(s', ids[j], u) {
        TurnOfStart(s, s', now, i, j, t, u);
      }
    }
  }

  lemma TurnOfStart(s: State, s': State, now: int, i: nat, j: nat, t: int, u: int)
    requires TimesFollow(s) && QueueIsTail(s) && AtMostOnce(multiset(CommitIds(s.h.commits)))
    requires s.inputQueue != [] && s'.h == s.h && s.clock <= now && i < j <= Taken(s)
    requires s'.running == s.running + [Entry(s.inputQueue[0], now, Working)]
    requires StartedAt(s', CommitIds(s.h.commits)[i], t) && StartedAt(s', CommitIds(s.h.commits)[j], u)
    ensures t <= u
  {
    var ids, n := CommitIds(s.h.commits), Taken(s);
    assert ids[n] == s.inputQueue[0];
    StartedByStep(s, s', now, ids[i], t);
    StartedByStep(s, s', now, ids[j], u);
    TwoPositions(ids, i, n);
    if j < n {
      TwoPositions(ids, j, n);
      assert InTurn(s, i, j, t, u);
    } else {
      NotYetStarted(s, u);
    }
  }

  lemma NotYetStarted(s: State, t: int)
    requires TimesFollow(s) && QueueIsTail(s) && AtMostOnce(multiset(CommitIds(s.h.commits))) && s.inputQueue != []
    ensures !StartedAt(s, s.inputQueue[0], t)
  {
    var ids, n := CommitIds(s.h.commits), Taken(s);
    assert ids[n] == s.inputQueue[0];
    if StartedAt(s, ids[n], t) {
      var i :| 0 <= i < n && ids[i] == ids[n];
      TwoPositions(ids, i, n);
    }
  }

  lemma OtherKeepsTimes(c: Config, s: State, a: Action, s': State)
    requires Next(c, s, a) == Some(s') && !a.CommitThread? && !a.RunnerLoop?
    ensures NothingNew(s, s') && Taken(s') == Taken(s) && s'.h.commits == s.h.commits && s'.clock == s.clock
    ensures QueueIsTail(s) ==> QueueIsTail(s')
  {
    OtherFrame(c, s, a, s');
    OtherClock(c, s, a, s');
  }

  lemma OtherClock(c: Config, s: State, a: Action, s': State)
    requires Next(c, s, a) == Some(s') && !a.CommitThread? && !a.RunnerLoop?
    ensures s'.clock == s.clock
  {
    match a
    case FetchThread => FetchFrame(s, s');
    case FetchTimeout => FetchFrame(s, s');
    case Client(ca) => ClientFrame(s, ca, s');
    case SetVersion(v) =>
  }

  lemma LoopFollows(c: Config, s: State, a: RunnerAction, s': State)
    requires TimesFollow(s) && QueueIsTail(s) && AtMostOnce(multiset(CommitIds(s.h.commits)))
    requires s.runner.DrainGet? && s.inputQueue != [] ==> s.inputQueue[0] !in EntryIds(s.running)
    requires RunnerStep(c, s, a) == Some(s')
    ensures TimesFollow(s') && QueueIsTail(s')
  {
    if Starts(s, a) {
      StartTakes(c, s, a, s');
      FollowStart(s, s', a.now);
    } else {
      LoopKeepsQueue(c, s, a, s');
      LoopStartsNothing(c, s, a, s');
      FollowKept(s, s');
    }
  }

  lemma CommitIdsDistinct(c: Config, acts: seq<Action>, s: State)
    requires Run(c, acts) == Some(s) && FreshIds(s)
    ensures AtMostOnce(multiset(CommitIds(s.h.commits)))
  {
    SubmissionOrder(c, acts, s);
    forall x ensures multiset(CommitIds(s.h.commits))[x] <= 1 {
      assert multiset(s.h.submitted)[x] <= 1;
      assert multiset(CommitIds(s.h.commits) + s.commit.Held() + s.pending)[x]
          == multiset(CommitIds(s.h.commits))[x] + multiset(s.commit.Held())[x] + multiset(s.pending)[x];
    }
  }

  /** Tasks are taken in the order of commits, and their creation times follow it. */
  lemma {:induction false} CreationFollowsCommits(c: Config, acts: seq<Action>, s: State)
    requires Run(c, acts) == Some(s) && FreshIds(s)
    ensures TimesFollow(s) && QueueIsTail(s)
  {
    if acts == [] {
    } else {
      var init, a := acts[..|acts| - 1], acts[|acts| - 1];
      var before := Run(c, init).value;
      FreshBefore(c, before, a, s);
      CreationFollowsCommits(c, init, before);
      match a
      case CommitThread =>
        CommitFrame(c, before, s);
        TailCommit(c, before, s);
        CommitsGrow(c, before, s);
        FollowKept(before, s);
      case RunnerLoop(r) =>
        CommitIdsDistinct(c, init, before);
        PipelineRunner.NoDuplicateWhileDraining(c, init, before);
        LoopFollows(c, before, r, s);
      case _ =>
        OtherKeepsTimes(c, before, a, s);
        FollowKept(before, s);
    }
  }

  lemma CommitsGrow(c: Config, s: State, s': State)
    requires CommitStep(c, s) == Some(s')
    ensures s.h.commits <= s'.h.commits && NothingNew(s, s')
  {
    CommitFrame(c, s, s');
  }

  // ---------------------------------------------------------------- what a wait hands out

  lemma HandWasStarted(c: Config, acts: seq<Action>, s: State, r: TaskResult)
    requires Run(c, acts) == Some(s) && FreshIds(s) && r in InClientHand(s)
    ensures StartedAt(s, r.id, r.createTime)
  {
    HarvestIsAccounted(c, acts, s);
    assert r in multiset(AfterRunner(s));
    assert r in multiset(s.h.harvested);
  }

  /** `x` was committed before `y`, or both were started at the same clock reading. */
  ghost predicate HandedInTurn(s: State, x: TaskResult, y: TaskResult) {
    && x.createTime <= y.createTime
    && forall i, j :: 0 <= i < j < |s.h.commits| && s.h.commits[i].id == y.id && s.h.commits[j].id == x.id ==>
         x.createTime == y.createTime
  }

  lemma EarlierTime(c: Config, acts: seq<Action>, s: State, x: TaskResult, y: TaskResult)
    requires Run(c, acts) == Some(s) && FreshIds(s) && x in InClientHand(s) && y in InClientHand(s)
    requires x.createTime <= y.createTime
    ensures HandedInTurn(s, x, y)
  {
    CreationFollowsCommits(c, acts, s);
    CommitIdsDistinct(c, acts, s);
    HandWasStarted(c, acts, s, x);
    HandWasStarted(c, acts, s, y);
    forall i, j | 0 <= i < j < |s.h.commits| && s.h.commits[i].id == y.id && s.h.commits[j].id == x.id
      ensures x.createTime == y.createTime
    {
      assert CommitIds(s.h.commits)[i] == y.id && CommitIds(s.h.commits)[j] == x.id;
      TakenAt(s, x, j);
      TakenAt(s, y, i);
      assert InTurn(s, i, j, y.createTime, x.createTime);
    }
  }

  lemma TakenAt(s: State, x: TaskResult, i: nat)
    requires TimesFollow(s) && StartedAt(s, x.id, x.createTime) && AtMostOnce(multiset(CommitIds(s.h.commits)))
    requires i < |s.h.commits| && CommitIds(s.h.commits)[i] == x.id
    ensures i < Taken(s)
  {
    var k :| 0 <= k < Taken(s) && CommitIds(s.h.commits)[k] == x.id;
    if k != i {
      TwoPositions(CommitIds(s.h.commits), i, k);
    }
  }

  /** The results that a step delivers. */
  function NewlyDelivered(s: State, s': State): seq<TaskResult>
    requires s.h.delivered <= s'.h.delivered
  {
    Results(s'.h.delivered[|s.h.delivered|..])
  }

  lemma DrainDelivers(s: State, s': State)
    requires ClientStep(s, Continue) == Some(s') && s.client.Drained?
    ensures s.h.delivered <= s'.h.delivered
    ensures NewlyDelivered(s, s') == SortByTime(s.client.got)[..s.client.count]
  {
    var selected := SortByTime(s.client.got)[..s.client.count];
    assert s'.h.delivered[|s.h.delivered|..] == Stamp(selected, s.version);
  }

  /** A wait for `count` results delivers `count` of those it found stored, and none ahead of a stored one that was
  committed earlier, unless both were started at the same clock reading. So whatever overtakes a sample was
  ready before it. */
  lemma WaitHandsOutTheEarliest(c: Config, acts: seq<Action>, s: State, s': State)
    requires Run(c, acts) == Some(s) && FreshIds(s) && s.client.Drained? && ClientStep(s, Continue) == Some(s')
    ensures s.h.delivered <= s'.h.delivered && |NewlyDelivered(s, s')| == s.client.count
    ensures forall x :: x in NewlyDelivered(s, s') ==> x in s.client.got
    ensures forall x, y :: x in NewlyDelivered(s, s') && y in s.client.got && y !in NewlyDelivered(s, s') ==>
              HandedInTurn(s, x, y)
  {
    var got, count := s.client.got, s.client.count;
    DrainDelivers(s, s');
    forall x, y | x in SortByTime(got)[..count] && y in got
      ensures x in got && (y !in SortByTime(got)[..count] ==> HandedInTurn(s, x, y))
    {
      FirstByTime(got, count, x, y);
      if y !in SortByTime(got)[..count] {
        EarlierTime(c, acts, s, x, y);
      }
    }
    forall x | x in SortByTime(got)[..count] ensures x in got {
      FirstByTime(got, count, x, got[0]);
    }
  }

  lemma FirstByTime(got: seq<TaskResult>, count: nat, x: TaskResult, y: TaskResult)
    requires count <= |got| && x in SortByTime(got)[..count] && y in got
    ensures x in got && (y !in SortByTime(got)[..count] ==> x.createTime <= y.createTime)
  {
    SortingSorts(got);
    assert x in SortByTime(got) && x in multiset(SortByTime(got));
    assert y in multiset(got) && y in multiset(SortByTime(got));
    FrontByTime(SortByTime(got), count, x, y);
  }

  lemma FrontByTime(sorted: seq<TaskResult>, count: nat, x: TaskResult, y: TaskResult)
    requires count <= |sorted| && SortedByTime(sorted) && x in sorted[..count] && y in sorted
    ensures y !in sorted[..count] ==> x.createTime <= y.createTime
  {
    var i :| 0 <= i < count && sorted[i] == x;
    var j :| 0 <= j < |sorted| && sorted[j] == y;
    assert j < count ==> sorted[..count][j] == y;
  }

  /** `wait_for_task` delivers the result of the task it was asked for. */
  lemma WaitForTaskDelivers(s: State, t: int, s': State)
    requires ClientStep(s, WaitForTask(t)) == Some(s') && s.client.Free?
    ensures s.h.delivered <= s'.h.delivered && |NewlyDelivered(s, s')| == 1
    ensures NewlyDelivered(s, s')[0].id == t && NewlyDelivered(s, s')[0] in s.pendingResults
  {
    var i := IndexOf(Ids(s.pendingResults), t);
    assert s'.h.delivered[|s.h.delivered|..] == Stamp([s.pendingResults[i]], s.version);
  }

  // ---------------------------------------------------------------- the tasks that may be waited for

  function DeliveredIds(s: State): seq<int> { Ids(Results(s.h.delivered)) }

  /** The dispatcher knows a task from the end of its submission until its result is delivered. */
  ghost predicate RegisteredOpen(s: State) {
    forall t :: t in s.registered <==> t in s.h.submitted && t !in DeliveredIds(s) && s.client != Register(t)
  }

  ghost predicate DeliveredWereSubmitted(s: State) { forall t :: t in DeliveredIds(s) ==> t in s.h.submitted }

  lemma RegisterSubmit(s: State, t: int, s': State)
    requires ClientStep(s, Submit(t)) == Some(s') && s.client.Free? && t !in s.h.submitted
    requires RegisteredOpen(s) && DeliveredWereSubmitted(s)
    ensures RegisteredOpen(s')
  {
    assert s'.h.submitted == s.h.submitted + [t] && s'.h.delivered == s.h.delivered && s'.registered == s.registered;
  }

  lemma RegisterContinue(s: State, s': State)
    requires ClientStep(s, Continue) == Some(s') && s.client.Register? && s.client.id in s.h.submitted
    requires RegisteredOpen(s) && s.client.id !in DeliveredIds(s)
    ensures RegisteredOpen(s')
  {
  }

  lemma RegisterDeliver(s: State, a: ClientAction, s': State)
    requires ClientStep(s, a) == Some(s') && (s.client.Drained? || (s.client.Free? && a.WaitForTask?))
    requires RegisteredOpen(s)
    ensures RegisteredOpen(s')
  {
    if s.client.Drained? {
      var selected := SortByTime(s.client.got)[..s.client.count];
      DeliveredAppend(s.h.delivered, selected, s.version);
      IdsAppend(Results(s.h.delivered), selected);
    } else {
      var i := IndexOf(Ids(s.pendingResults), a.id);
      DeliveredAppend(s.h.delivered, [s.pendingResults[i]], s.version);
      IdsAppend(Results(s.h.delivered), [s.pendingResults[i]]);
      assert Ids([s.pendingResults[i]]) == [a.id];
    }
  }

  lemma RegisterOther(s: State, a: ClientAction, s': State)
    requires ClientStep(s, a) == Some(s') && !s.client.Drained? && !s.client.Register?
    requires s.client.Free? ==> !a.Submit? && !a.WaitForTask?
    ensures s'.registered == s.registered && s'.h.submitted == s.h.submitted && s'.h.delivered == s.h.delivered
    ensures !s'.client.Register?
  {
  }

  lemma RegisterClient(s: State, a: ClientAction, s': State)
    requires ClientStep(s, a) == Some(s') && RegisteredOpen(s) && DeliveredWereSubmitted(s)
    requires a.Submit? && s.client.Free? ==> a.id !in s.h.submitted
    requires s.client.Register? ==> s.client.id in s.h.submitted && s.client.id !in DeliveredIds(s)
    ensures RegisteredOpen(s')
  {
    if s.client.Register? {
      RegisterContinue(s, s');
    } else if s.client.Free? && a.Submit? {
      RegisterSubmit(s, a.id, s');
    } else if s.client.Drained? || (s.client.Free? && a.WaitForTask?) {
      RegisterDeliver(s, a, s');
    } else {
      RegisterOther(s, a, s');
    }
  }

  /** The task that is being registered was submitted and not delivered. */
  ghost predicate RegistersNew(s: State) {
    s.client.Register? ==> s.client.id in s.h.submitted && s.client.id !in DeliveredIds(s)
  }

  lemma RegisteredStep(c: Config, s: State, a: Action, s': State)
    requires RegisteredOpen(s) && RegistersNew(s) && DeliveredWereSubmitted(s) && Next(c, s, a) == Some(s')
    requires FreshIds(s')
    ensures RegisteredOpen(s') && RegistersNew(s')
  {
    match a
    case CommitThread => CommitFrame(c, s, s');
    case RunnerLoop(r) => RunnerFrame(c, s, r, s');
    case FetchThread => FetchFrame(s, s');
    case FetchTimeout => FetchFrame(s, s');
    case Client(ca) =>
      ClientSubmits(s, ca, s');
      if ca.Submit? {
        SubmittedAnew(s.h.submitted, ca.id);
        SubmitRegisters(s, ca, s');
      } else {
        ClientRegisters(s, ca, s');
      }
      RegisterClient(s, ca, s');
    case SetVersion(v) =>
  }

  lemma SubmittedAnew(ids: seq<int>, t: int)
    requires AtMostOnce(multiset(ids + [t]))
    ensures t !in ids
  {
    assert multiset(ids + [t])[t] == multiset(ids)[t] + 1;
  }

  lemma SubmitRegisters(s: State, a: ClientAction, s': State)
    requires ClientStep(s, a) == Some(s') && a.Submit?
    ensures s.client.Free? && s'.client == Register(a.id) && s'.h.delivered == s.h.delivered
  {
  }

  lemma ClientRegisters(s: State, a: ClientAction, s': State)
    requires ClientStep(s, a) == Some(s') && !a.Submit?
    ensures !s'.client.Register?
  {
  }

  /** With fresh ids the dispatcher knows exactly the tasks that were submitted and not delivered, up to the one
  whose submission has not returned. */
  lemma {:induction false} RegisteredExactly(c: Config, acts: seq<Action>, s: State)
    requires Run(c, acts) == Some(s) && FreshIds(s)
    ensures RegisteredOpen(s) && RegistersNew(s)
  {
    if acts == [] {
    } else {
      var init, a := acts[..|acts| - 1], acts[|acts| - 1];
      var before := Run(c, init).value;
      FreshBefore(c, before, a, s);
      RegisteredExactly(c, init, before);
      forall t | t in DeliveredIds(before) ensures t in before.h.submitted {
        ExactlyOnce(c, init, before, t);
      }
      RegisteredStep(c, before, a, s);
    }
  }
}
