/** Macro steps for concrete runs: each is a fixed sequence of atomic steps of the pipeline. */
module PipelineMacros {
  import opened Staleness
  import opened Tasks
  import opened Pipeline

  /** The client submits `t` while the commit thread is about to take the lock. */
  lemma Enqueue(c: Config, s: State, t: int) returns (s': State)
    requires Reachable(c, s) && s.client.Free? && s.commit.Acquire?
    ensures Reachable(c, s')
    ensures s' == s.(pending := s.pending + [t], stat := s.stat.OnEnqueued(), registered := s.registered + {t},
                     h := s.h.(submitted := s.h.submitted + [t], raised := false))
  {
    var s1 := Step(c, s, Client(Submit(t)));
    s' := Step(c, s1, Client(Continue));
  }

  /** The commit thread moves the first input into the runner's queue. */
  lemma Launch(c: Config, s: State) returns (s': State)
    requires Reachable(c, s) && s.commit.Acquire? && !s.paused
    requires Capacity(c.limits, s.stat, s.version) > 0
    requires s.pending != [] && s.pending[0] !in s.active && !c.Full(s.inputQueue)
    ensures Reachable(c, s')
    ensures var t := s.pending[0];
            s' == s.(pending := s.pending[1..], active := s.active + {t}, inputQueue := s.inputQueue + [t],
                     commit := Signalling(t, s.version),
                     h := s.h.(commits := s.h.commits + [Commit(t, s.version)]))
  {
    var t, v := s.pending[0], s.version;
    var s1 := Step(c, s, CommitThread);
    assert s1 == s.(commit := ReadPaused);
    var s2 := Step(c, s1, CommitThread);
    assert s2 == s.(commit := ReadCapacity);
    var s3 := Step(c, s2, CommitThread);
    assert s3 == s.(commit := TakeInput(v));
    var s4 := Step(c, s3, CommitThread);
    assert s4 == s.(commit := Hand(t, v), pending := s.pending[1..]);
    var s5 := Step(c, s4, CommitThread);
    assert s5 == s4.(commit := Registered(t, v), active := s.active + {t});
    s' := Step(c, s5, CommitThread);
  }

  /** It signals the loop and counts the task. */
  lemma CountIt(c: Config, s: State) returns (s': State)
    requires Reachable(c, s) && s.commit.Signalling?
    ensures Reachable(c, s')
    ensures s' == s.(commit := Acquire, stat := s.stat.OnSubmitted(), scheduledSets := s.scheduledSets + 1)
  {
    var s1 := Step(c, s, CommitThread);
    s' := Step(c, s1, CommitThread);
  }

  /** The event loop, at its top, starts the only queued task and waits. */
  lemma Start(c: Config, s: State) returns (s': State)
    requires Reachable(c, s) && s.runner.Top? && !s.paused
    requires |s.inputQueue| == 1 && s.inputQueue[0] !in EntryIds(s.running)
    ensures Reachable(c, s')
    ensures s' == s.(runner := AwaitTasks, inputQueue := [], clock := s.clock + 1,
                     running := s.running + [Entry(s.inputQueue[0], s.clock + 1, Working)])
  {
    var now := s.clock + 1;
    var s1 := Step(c, s, RunnerLoop(Proceed(now)));
    assert s1 == s.(runner := DrainCheck);
    var s2 := Step(c, s1, RunnerLoop(Proceed(now)));
    assert s2 == s.(runner := DrainGet);
    var s3 := Step(c, s2, RunnerLoop(Proceed(now)));
    assert s3 == s.(runner := DrainCheck, inputQueue := [], clock := now,
                    running := s.running + [Entry(s.inputQueue[0], now, Working)]);
    s' := WaitAgain(c, s3);
  }

  /** With nothing queued the loop goes on to wait for its running tasks. */
  lemma WaitAgain(c: Config, s: State) returns (s': State)
    requires Reachable(c, s) && s.runner.DrainCheck? && !s.paused && s.inputQueue == [] && s.running != []
    ensures Reachable(c, s') && s' == s.(runner := AwaitTasks)
  {
    var s1 := Step(c, s, RunnerLoop(Proceed(0)));
    assert s1 == s.(runner := DrainGet);
    var s2 := Step(c, s1, RunnerLoop(Proceed(0)));
    assert s2 == s.(runner := DrainEnd);
    s' := Step(c, s2, RunnerLoop(Proceed(0)));
  }

  lemma Rest(c: Config, s: State) returns (s': State)
    requires Reachable(c, s) && s.runner.Top? && !s.paused && s.inputQueue == [] && s.running != []
    ensures Reachable(c, s') && s' == s.(runner := AwaitTasks)
  {
    var s1 := Step(c, s, RunnerLoop(Proceed(0)));
    assert s1 == s.(runner := DrainCheck);
    s' := WaitAgain(c, s1);
  }

  /** Once around the loop without anything finished. */
  lemma AroundTheLoop(c: Config, s: State) returns (s': State)
    requires Reachable(c, s) && s.runner.AwaitTasks? && DoneIds(s.running) == {}
    ensures Reachable(c, s') && s' == s.(runner := Top)
  {
    s' := Step(c, s, RunnerLoop(Proceed(0)));
  }

  ghost predicate AllWorking(rows: seq<Entry>) { forall i :: 0 <= i < |rows| ==> rows[i].status == Working }

  lemma NobodyIsDone(rows: seq<Entry>)
    requires AllWorking(rows)
    ensures DoneIds(rows) == {}
  {
  }

  /** Row `i`, of rows that are all working, gets its verdict and its result goes to the output queue. */
  lemma FinishAndHarvest(c: Config, s: State, i: nat, b: bool) returns (s': State)
    requires Reachable(c, s) && s.runner.AwaitTasks? && i < |s.running| && !c.Full(s.outputQueue)
    requires AllWorking(s.running)
    ensures Reachable(c, s')
    ensures var e := s.running[i];
            var r := TaskResult(e.id, e.createTime, b);
            s' == s.(runner := Top, running := RemoveAt(s.running, i), outputQueue := s.outputQueue + [r],
                     active := s.active - {e.id}, stat := if b then s.stat.OnAccepted() else s.stat.OnRejected(),
                     h := s.h.(verdict := s.h.verdict[e.id := b], harvested := s.h.harvested + [r]))
  {
    var e := s.running[i];
    var rows := s.running[i := e.(status := Done(b))];
    var s1 := Step(c, s, RunnerLoop(Finish(i, b)));
    assert s1 == s.(running := rows, stat := if b then s.stat.OnAccepted() else s.stat.OnRejected(),
                    h := s.h.(verdict := s.h.verdict[e.id := b]));
    OneDone(s.running, i, b);
    var s2 := Step(c, s1, RunnerLoop(Proceed(0)));
    assert s2 == s1.(runner := Harvest({e.id}));
    var s3 := Step(c, s2, RunnerLoop(Pick(i)));
    assert RemoveAt(rows, i) == RemoveAt(s.running, i);
    var r := TaskResult(e.id, e.createTime, b);
    assert {e.id} - {e.id} == {};
    assert s3 == s1.(runner := Release(e.id, {}), running := RemoveAt(s.running, i), outputQueue := s.outputQueue + [r],
                     h := s1.h.(harvested := s.h.harvested + [r]));
    s' := Step(c, s3, RunnerLoop(Proceed(0)));
  }

  lemma OneDone(rows: seq<Entry>, i: nat, b: bool)
    requires i < |rows| && AllWorking(rows)
    ensures DoneIds(rows[i := rows[i].(status := Done(b))]) == {rows[i].id}
  {
    var rows' := rows[i := rows[i].(status := Done(b))];
    assert rows'[i].status.Done? && rows'[i] in rows';
    assert forall j :: 0 <= j < |rows'| && j != i ==> rows'[j].status == Working;
  }

  /** The fetch thread stores the only result in the output queue and notifies. */
  lemma FetchOneResult(c: Config, s: State) returns (s': State)
    requires Reachable(c, s) && s.fetch == FetchPc.Poll && s.commit.Acquire? && |s.outputQueue| == 1
             && s.pendingResults == []
    ensures Reachable(c, s')
    ensures s' == s.(outputQueue := [], pendingResults := s.outputQueue, h := s.h.(raised := false))
  {
    var r := s.outputQueue[0];
    var s1 := Step(c, s, FetchThread);
    assert s1 == s.(fetch := Collect(1, []));
    assert s.outputQueue[1..] == [] && [] + [r] == [r];
    var s2 := Step(c, s1, FetchThread);
    assert s2 == s.(fetch := Store([r]), outputQueue := []);
    s' := StoreOne(c, s2, r);
    assert s.outputQueue == [r];
  }

  lemma StoreOne(c: Config, s: State, r: TaskResult) returns (s': State)
    requires Reachable(c, s) && s.fetch == Store([r]) && s.commit.Acquire? && s.pendingResults == []
    ensures Reachable(c, s')
    ensures s' == s.(fetch := FetchPc.Poll, pendingResults := [r], h := s.h.(raised := false))
  {
    assert DictPutAll([], [r]) == [r];
    var s1 := Step(c, s, FetchThread);
    assert s1 == s.(fetch := Announce, pendingResults := [r]);
    s' := Step(c, s1, FetchThread);
  }

  /** The client waits for one result and gets the only one stored. */
  lemma Consume(c: Config, s: State) returns (s': State)
    requires Reachable(c, s) && s.client.Free? && |s.pendingResults| == 1
    ensures Reachable(c, s')
    ensures s' == s.(pendingResults := [], registered := s.registered - {s.pendingResults[0].id},
                     h := s.h.(delivered := s.h.delivered + [Delivery(s.pendingResults[0], s.version)]))
  {
    var rs := s.pendingResults;
    var s1 := Step(c, s, Client(WaitResults(1)));
    assert s1 == s.(client := Drained(rs, 1), pendingResults := []);
    assert SortByTime(rs) == rs by {
      assert rs == [rs[0]] && SortByTime([]) == [];
    }
    assert rs[..1] == rs && rs[1..] == [];
    assert (set t | t in Ids(rs)) == {rs[0].id} by {
      assert Ids(rs) == [rs[0].id];
    }
    assert Stamp(rs, s.version) == [Delivery(rs[0], s.version)];
    s' := Step(c, s1, Client(Continue));
  }

  // ---------------------------------------------------------------- whole tasks

  /** Between two macro steps: every thread is at its start and only running tasks are anywhere. */
  ghost predicate Calm(s: State) {
    && s.commit.Acquire? && s.client.Free? && s.runner.Top? && s.fetch == FetchPc.Poll && !s.paused
    && s.pending == [] && s.inputQueue == [] && s.outputQueue == [] && s.pendingResults == []
    && AllWorking(s.running)
  }

  /** Task `t` was submitted, committed and started. */
  ghost predicate Added(s: State, t: int, s': State) {
    && s'.version == s.version && s'.clock == s.clock + 1 && s'.active == s.active + {t}
    && s'.running == s.running + [Entry(t, s.clock + 1, Working)]
    && s'.stat == s.stat.OnEnqueued().OnSubmitted()
    && s'.h.submitted == s.h.submitted + [t] && s'.h.commits == s.h.commits + [Commit(t, s.version)]
    && s'.h.delivered == s.h.delivered && s'.h.lost == s.h.lost
  }

  lemma AddOne(c: Config, s: State, t: int) returns (s': State)
    requires c.maxQueueSize > 0 && Reachable(c, s) && Calm(s) && Capacity(c.limits, s.stat, s.version) > 0
    requires t !in s.active && t !in EntryIds(s.running)
    ensures Reachable(c, s') && Calm(s') && Added(s, t, s')
  {
    var s1 := Submitted(c, s, t);
    var s2 := CountIt(c, s1);
    var s3 := Start(c, s2);
    NobodyIsDone(s3.running);
    s' := AroundTheLoop(c, s3);
  }

  lemma Submitted(c: Config, s: State, t: int) returns (s': State)
    requires c.maxQueueSize > 0 && Reachable(c, s) && Calm(s) && Capacity(c.limits, s.stat, s.version) > 0
    requires t !in s.active
    ensures Reachable(c, s')
    ensures s'.commit == Signalling(t, s.version) && s'.client == s.client && s'.runner == s.runner
            && s'.fetch == s.fetch
    ensures s'.pending == [] && s'.inputQueue == [t] && s'.outputQueue == [] && s'.pendingResults == [] && !s'.paused
    ensures s'.active == s.active + {t} && s'.running == s.running && s'.clock == s.clock && s'.version == s.version
    ensures s'.stat == s.stat.OnEnqueued()
    ensures s'.h.submitted == s.h.submitted + [t] && s'.h.commits == s.h.commits + [Commit(t, s.version)]
    ensures s'.h.delivered == s.h.delivered && s'.h.lost == s.h.lost
  {
    var s1 := Enqueue(c, s, t);
    assert s1.pending == [t];
    s' := Launch(c, s1);
  }

  /** The task of row `i` got the verdict `b`, and its result was delivered at the current version. */
  ghost predicate Finished(s: State, i: nat, b: bool, s': State)
    requires i < |s.running|
  {
    var e := s.running[i];
    && s'.version == s.version && s'.clock == s.clock && s'.active == s.active - {e.id}
    && s'.running == RemoveAt(s.running, i)
    && s'.stat == (if b then s.stat.OnAccepted() else s.stat.OnRejected())
    && s'.h.submitted == s.h.submitted && s'.h.commits == s.h.commits && s'.h.lost == s.h.lost
    && s'.h.delivered == s.h.delivered + [Delivery(TaskResult(e.id, e.createTime, b), s.version)]
  }

  lemma FinishOne(c: Config, s: State, i: nat, b: bool) returns (s': State)
    requires c.maxQueueSize > 0 && Reachable(c, s) && Calm(s) && i < |s.running|
    ensures Reachable(c, s') && Calm(s') && Finished(s, i, b, s')
  {
    var s1 := Rest(c, s);
    var s2 := FinishAndHarvest(c, s1, i, b);
    var s3 := FetchOneResult(c, s2);
    s' := Consume(c, s3);
  }

  lemma Raise(c: Config, s: State, v: int) returns (s': State)
    requires Reachable(c, s) && v >= s.version
    ensures Reachable(c, s') && s' == s.(version := v, h := s.h.(raised := s.h.raised || v > s.version))
  {
    s' := Step(c, s, SetVersion(v));
  }
}
