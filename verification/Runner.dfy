/** `AsyncTaskRunner` method by method (areal/infra/async_task_runner.py), without interference; the
interleavings are the subject of the pipeline modules. */
module Runner {
  import opened Sequences
  import opened Tasks

  datatype SubmitOutcome = Submitted(id: int) | Duplicate | QueueFull

  datatype FetchOutcome = Collected(results: seq<TaskResult>) | TimedOut

  /** The rows that the tasks `q`, started at the clock readings `times`, add to the table. */
  function Rows(q: seq<int>, times: seq<int>): seq<Entry>
    requires |times| >= |q|
  {
    seq(|q|, i requires 0 <= i < |q| => Entry(q[i], times[i], Working))
  }

  class AsyncTaskRunner {
    const maxQueueSize: int
    var inputQueue: seq<int>
    var outputQueue: seq<TaskResult>
    var activeTaskIds: set<int>
    var runningTasks: seq<Entry>
    var paused: bool
    var inputEvent: bool

    /** What the pipeline proves about every interleaving holds of every method on its own. */
    ghost predicate Valid()
      reads this
    {
      AtMostOnce(Ids()) && forall t :: t in Ids() ==> t in activeTaskIds
    }

    /** The ids in the queue and in the table. */
    ghost function Ids(): multiset<int>
      reads this
    {
      multiset(inputQueue) + multiset(EntryIds(runningTasks))
    }

    constructor (maxQueueSize: int)
      ensures this.maxQueueSize == maxQueueSize && Valid()
      ensures inputQueue == [] && outputQueue == [] && activeTaskIds == {} && runningTasks == []
      ensures !paused && inputEvent
    {
      this.maxQueueSize := maxQueueSize;
      inputQueue, outputQueue, activeTaskIds, runningTasks := [], [], {}, [];
      paused, inputEvent := false, true;
    }

    /** All or nothing: a duplicate id or a full queue leaves the runner as it was. */
    method Submit(id: int) returns (r: SubmitOutcome)
      requires Valid()
      modifies this
      ensures Valid()
      ensures r.Duplicate? <==> id in old(activeTaskIds)
      ensures r.QueueFull? <==> id !in old(activeTaskIds) && 0 < maxQueueSize <= |old(inputQueue)|
      ensures r.Submitted? ==> r.id == id
      ensures inputQueue == if r.Submitted? then old(inputQueue) + [id] else old(inputQueue)
      ensures activeTaskIds == if r.Submitted? then old(activeTaskIds) + {id} else old(activeTaskIds)
      ensures inputEvent == (old(inputEvent) || r.Submitted?)
      ensures runningTasks == old(runningTasks) && outputQueue == old(outputQueue) && paused == old(paused)
    {
      if id in activeTaskIds {
        return Duplicate;
      }
      ghost var ids, active := Ids(), activeTaskIds;
      activeTaskIds := activeTaskIds + {id};
      if maxQueueSize > 0 && |inputQueue| >= maxQueueSize {
        activeTaskIds := activeTaskIds - {id};
        assert activeTaskIds == active;
        return QueueFull;
      }
      FreshStaysDistinct(ids, id);
      QueuedToo(inputQueue, EntryIds(runningTasks), id);
      inputQueue := inputQueue + [id];
      assert Ids() == ids + multiset{id};
      inputEvent := true;
      r := Submitted(id);
    }

    /** Every queued task gets a row, in queue order; the check for a row of the same id never fails. */
    method DrainPendingInputs(times: seq<int>) returns (tasksAdded: nat, duplicate: bool)
      requires Valid() && |times| >= |inputQueue|
      modifies this
      ensures Valid() && !duplicate
      ensures paused ==> tasksAdded == 0 && inputQueue == old(inputQueue) && runningTasks == old(runningTasks)
      ensures !paused ==> tasksAdded == |old(inputQueue)| && inputQueue == []
      ensures !paused ==> runningTasks == old(runningTasks) + Rows(old(inputQueue), times)
      ensures paused == old(paused) && activeTaskIds == old(activeTaskIds) && outputQueue == old(outputQueue)
      ensures inputEvent == old(inputEvent)
    {
      tasksAdded, duplicate := 0, false;
      ghost var q0, run0, ids := inputQueue, runningTasks, Ids();
      NothingStarted(q0, run0, times);
      while !paused && !duplicate
        invariant !duplicate
        invariant Starting(q0, run0, ids, times, tasksAdded, inputQueue, runningTasks)
        invariant paused ==> tasksAdded == 0
        invariant paused == old(paused) && activeTaskIds == old(activeTaskIds) && outputQueue == old(outputQueue)
        invariant inputEvent == old(inputEvent)
        decreases |inputQueue|
      {
        if inputQueue == [] {
          break;
        }
        var task := inputQueue[0];
        StartOne(q0, run0, ids, times, tasksAdded, inputQueue, runningTasks);
        inputQueue := inputQueue[1..];
        duplicate := task in EntryIds(runningTasks);
        if !duplicate {
          runningTasks := runningTasks + [Entry(task, times[tasksAdded], Working)];
          tasksAdded := tasksAdded + 1;
        }
      }
      StartedSoFar(q0, run0, ids, times, tasksAdded, inputQueue, runningTasks);
    }

    /** One completed row moves to the output queue and its id becomes free again; with a full queue the
    row stays in the table and the loop stops. */
    method Complete(i: nat) returns (crashed: bool)
      requires Valid() && i < |runningTasks| && runningTasks[i].status.Done?
      modifies this
      ensures Valid()
      ensures crashed <==> 0 < maxQueueSize <= |old(outputQueue)|
      ensures var e := old(runningTasks)[i];
        && runningTasks == RemoveAt(old(runningTasks), i) + (if crashed then [e] else [])
        && outputQueue == old(outputQueue)
           + (if crashed then [] else [TaskResult(e.id, e.createTime, e.status.accepted)])
        && activeTaskIds == old(activeTaskIds) - (if crashed then {} else {e.id})
      ensures inputQueue == old(inputQueue) && paused == old(paused) && inputEvent == old(inputEvent)
    {
      var e := runningTasks[i];
      EntryIdsRemoveAt(runningTasks, i);
      runningTasks := RemoveAt(runningTasks, i);
      assert old(Ids()) == Ids() + multiset{e.id};
      if maxQueueSize > 0 && |outputQueue| >= maxQueueSize {
        assert EntryIds(runningTasks + [e]) == EntryIds(runningTasks) + [e.id];
        runningTasks := runningTasks + [e];
        return true;
      }
      outputQueue := outputQueue + [TaskResult(e.id, e.createTime, e.status.accepted)];
      activeTaskIds := activeTaskIds - {e.id};
      RemovedStaysDistinct(Ids(), e.id);
      crashed := false;
    }

    /** Collect `count` results; `arrivals[k]` are put into the queue before the k-th poll, and the
    deadline passes when they are used up. It succeeds exactly when `count` of the polls find something, as soon
    as they have; the results are then the next `count` in queue order. On a timeout everything collected so
    far, one result for each poll that found something, is gone: neither returned nor left in the queue. */
    method Wait(count: nat, arrivals: seq<seq<TaskResult>>) returns (r: FetchOutcome, polls: nat)
      modifies this
      ensures polls <= |arrivals|
      ensures r.TimedOut? <==> Found(|old(outputQueue)|, arrivals) < count
      ensures r.Collected? ==> |r.results| == count
      ensures r.Collected? ==> r.results + outputQueue == old(outputQueue) + Flatten(arrivals[..polls])
      ensures r.Collected? ==> forall k :: 0 <= k < polls ==> Found(|old(outputQueue)|, arrivals[..k]) < count
      ensures r.TimedOut? ==> polls == |arrivals|
      ensures r.TimedOut? ==>
              exists lost :: |lost| == Found(|old(outputQueue)|, arrivals)
                             && lost + outputQueue == old(outputQueue) + Flatten(arrivals)
      ensures inputQueue == old(inputQueue) && runningTasks == old(runningTasks) && activeTaskIds == old(activeTaskIds)
      ensures paused == old(paused) && inputEvent == old(inputEvent)
    {
      var results: seq<TaskResult> := [];
      polls := 0;
      ghost var q0 := outputQueue;
      assert [] + q0 == q0 + Flatten(arrivals[..0]);
      while |results| < count
        invariant polls <= |arrivals| && |results| <= count
        invariant Collecting(results, outputQueue, q0, arrivals, polls)
        invariant forall k :: 0 <= k < polls ==> Found(|q0|, arrivals[..k]) < count
        invariant inputQueue == old(inputQueue) && runningTasks == old(runningTasks)
        invariant activeTaskIds == old(activeTaskIds) && paused == old(paused) && inputEvent == old(inputEvent)
        decreases |arrivals| - polls
      {
        if polls == |arrivals| {
          assert arrivals[..polls] == arrivals;
          return TimedOut, polls;
        }
        OnePoll(results, outputQueue, q0, arrivals, polls);
        outputQueue := outputQueue + arrivals[polls];
        polls := polls + 1;
        if outputQueue == [] {
          continue;
        }
        results := results + [outputQueue[0]];
        outputQueue := outputQueue[1..];
      }
      FoundSoFar(|q0|, arrivals, polls);
      r := Collected(results);
    }

    method Pause()
      modifies `paused
      ensures paused
    {
      paused := true;
    }

    method Resume()
      modifies `paused, `inputEvent
      ensures !paused && inputEvent
    {
      paused := false;
      inputEvent := true;
    }
  }

  // ---------------------------------------------------------------- polls that find something

  /** How many polls find something when the queue starts with `queued` results and `arrivals[k]` come in before
  the k-th poll: a poll finds something unless the earlier ones have taken all that there was. */
  function Found(queued: nat, arrivals: seq<seq<TaskResult>>): nat {
    if arrivals == [] then 0
    else
      var earlier := Found(queued, arrivals[..|arrivals| - 1]);
      if earlier < queued + |Flatten(arrivals)| then earlier + 1 else earlier
  }

  lemma OneMorePoll(queued: nat, arrivals: seq<seq<TaskResult>>, k: nat)
    requires k < |arrivals|
    ensures var earlier := Found(queued, arrivals[..k]);
            Found(queued, arrivals[..k + 1]) ==
            if earlier < queued + |Flatten(arrivals[..k + 1])| then earlier + 1 else earlier
  {
    assert arrivals[..k + 1][..k] == arrivals[..k];
  }

  lemma {:induction false} FoundSoFar(queued: nat, arrivals: seq<seq<TaskResult>>, k: nat)
    requires k <= |arrivals|
    ensures Found(queued, arrivals[..k]) <= Found(queued, arrivals)
    decreases |arrivals| - k
  {
    if k == |arrivals| {
      assert arrivals[..k] == arrivals;
    } else {
      OneMorePoll(queued, arrivals, k);
      FoundSoFar(queued, arrivals, k + 1);
    }
  }

  /** After that many polls, one result has been collected for each that found something. */
  ghost predicate Collecting(results: seq<TaskResult>, q: seq<TaskResult>, q0: seq<TaskResult>,
                             arrivals: seq<seq<TaskResult>>, polls: nat)
    requires polls <= |arrivals|
  {
    results + q == q0 + Flatten(arrivals[..polls]) && |results| == Found(|q0|, arrivals[..polls])
  }

  lemma OnePoll(results: seq<TaskResult>, q: seq<TaskResult>, q0: seq<TaskResult>, arrivals: seq<seq<TaskResult>>,
                polls: nat)
    requires polls < |arrivals| && Collecting(results, q, q0, arrivals, polls)
    ensures var q' := q + arrivals[polls];
            if q' == [] then Collecting(results, q', q0, arrivals, polls + 1)
            else Collecting(results + [q'[0]], q'[1..], q0, arrivals, polls + 1)
  {
    var q' := q + arrivals[polls];
    FlattenPrefix(arrivals, polls);
    OneMorePoll(|q0|, arrivals, polls);
    assert results + q' == results + q + arrivals[polls];
    assert |results| + |q'| == |q0| + |Flatten(arrivals[..polls + 1])|;
    if q' != [] {
      assert q' == [q'[0]] + q'[1..];
      assert results + [q'[0]] + q'[1..] == results + q';
    }
  }

  /** No poll finds more than there is. */
  lemma {:induction false} FoundAtMost(queued: nat, arrivals: seq<seq<TaskResult>>)
    ensures Found(queued, arrivals) <= queued + |Flatten(arrivals)|
  {
    if arrivals == [] {
    } else {
      var n := |arrivals| - 1;
      FoundAtMost(queued, arrivals[..n]);
      FlattenPrefix(arrivals, n);
      assert arrivals[..n + 1] == arrivals;
    }
  }

  /** `count` polls find something exactly when there are as many polls and, from every poll on, the results
  that have come in before it and the polls that remain are together as many. */
  lemma {:induction false} FoundExactly(queued: nat, arrivals: seq<seq<TaskResult>>, count: nat)
    ensures Found(queued, arrivals) >= count <==>
            |arrivals| >= count && forall k :: 0 < k <= |arrivals| ==> EnoughAt(queued, arrivals, count, k)
  {
    if arrivals == [] || count == 0 {
    } else {
      var n, fewer := |arrivals|, count - 1;
      var rest := arrivals[..n - 1];
      assert arrivals[..n] == arrivals;
      FoundAtMost(queued, arrivals);
      FoundExactly(queued, rest, fewer);
      assert EnoughAt(queued, arrivals, count, n) <==> queued + |Flatten(arrivals)| >= count;
      forall k | 0 < k < n ensures EnoughAt(queued, rest, fewer, k) == EnoughAt(queued, arrivals, count, k) {
        assert rest[..k] == arrivals[..k];
      }
    }
  }

  ghost predicate EnoughAt(queued: nat, arrivals: seq<seq<TaskResult>>, count: nat, k: nat)
    requires k <= |arrivals|
  {
    queued + |Flatten(arrivals[..k])| + (|arrivals| - k) >= count
  }

  /** In particular a queue that holds enough is enough for as many polls. */
  lemma EnoughQueued(queued: nat, arrivals: seq<seq<TaskResult>>, count: nat)
    requires queued >= count && |arrivals| >= count
    ensures Found(queued, arrivals) >= count
  {
    FoundExactly(queued, arrivals, count);
  }

  // ---------------------------------------------------------------- bags of ids

  lemma FreshStaysDistinct(bag: multiset<int>, x: int)
    requires AtMostOnce(bag) && x !in bag
    ensures AtMostOnce(bag + multiset{x})
  {
    forall y ensures (bag + multiset{x})[y] <= 1 {
      assert bag[y] <= 1;
    }
  }

  lemma QueuedToo(q: seq<int>, ids: seq<int>, x: int)
    ensures multiset(q + [x]) + multiset(ids) == multiset(q) + multiset(ids) + multiset{x}
  {
  }

  lemma RemovedStaysDistinct(bag: multiset<int>, x: int)
    requires AtMostOnce(bag + multiset{x})
    ensures AtMostOnce(bag) && x !in bag
  {
    assert (bag + multiset{x})[x] <= 1;
    forall y ensures bag[y] <= 1 {
      assert (bag + multiset{x})[y] <= 1;
    }
  }

  lemma RowsGrow(q: seq<int>, times: seq<int>, n: nat)
    requires n < |q| <= |times|
    ensures Rows(q[..n + 1], times) == Rows(q[..n], times) + [Entry(q[n], times[n], Working)]
    ensures q[..|q|] == q && q[n..] == [q[n]] + q[n + 1..]
  {
  }

  /** `n` of the queued tasks `q0` have been started; `q` and `run` are what the queue and the table have become. */
  ghost predicate Starting(q0: seq<int>, run0: seq<Entry>, ids: multiset<int>, times: seq<int>, n: nat, q: seq<int>,
                           run: seq<Entry>) {
    && n <= |q0| <= |times| && q == q0[n..] && run == run0 + Rows(q0[..n], times)
    && multiset(q) + multiset(EntryIds(run)) == ids
  }

  lemma NothingStarted(q0: seq<int>, run0: seq<Entry>, times: seq<int>)
    requires |q0| <= |times|
    ensures Starting(q0, run0, multiset(q0) + multiset(EntryIds(run0)), times, 0, q0, run0)
  {
    assert q0[0..] == q0 && run0 + [] == run0;
  }

  /** The next one is not in the table yet, and starting it keeps all ids. */
  lemma StartOne(q0: seq<int>, run0: seq<Entry>, ids: multiset<int>, times: seq<int>, n: nat, q: seq<int>,
                 run: seq<Entry>)
    requires Starting(q0, run0, ids, times, n, q, run) && q != [] && AtMostOnce(ids)
    ensures q[0] !in EntryIds(run)
    ensures Starting(q0, run0, ids, times, n + 1, q[1..], run + [Entry(q[0], times[n], Working)])
  {
    NotStartedTwice(q, EntryIds(run));
    StartKeepsIds(q, run, times[n]);
    RowsGrow(q0, times, n);
  }

  lemma StartedSoFar(q0: seq<int>, run0: seq<Entry>, ids: multiset<int>, times: seq<int>, n: nat, q: seq<int>,
                     run: seq<Entry>)
    requires Starting(q0, run0, ids, times, n, q, run)
    ensures n == 0 ==> q == q0 && run == run0
    ensures q == [] ==> n == |q0| && run == run0 + Rows(q0, times)
  {
    assert q0[..|q0|] == q0;
  }

  lemma NotStartedTwice(q: seq<int>, ids: seq<int>)
    requires AtMostOnce(multiset(q) + multiset(ids)) && q != []
    ensures q[0] !in ids
  {
    var x := q[0];
    assert x in q && multiset(q)[x] >= 1;
    assert (multiset(q) + multiset(ids))[x] == multiset(q)[x] + multiset(ids)[x] <= 1;
  }
}
