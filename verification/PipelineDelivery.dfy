/** Conservation: where every submitted task is, and in which order tasks reach the runner. */
module PipelineDelivery {
  import opened Wrappers
  import opened Sequences
  import opened Tasks
  import opened Pipeline
  import opened PipelineFrames
  import PipelineRunner

  // ---------------------------------------------------------------- order of submission

  /** Tasks that entered the runner, then the one in the commit thread's hand, then the pending ones. */
  ghost predicate InOrder(s: State) {
    CommitIds(s.h.commits) + s.commit.Held() + s.pending == s.h.submitted
  }

  lemma InOrderCommit(c: Config, s: State, s': State)
    requires InOrder(s) && CommitStep(c, s) == Some(s')
    ensures InOrder(s')
  {
    CommitFrame(c, s, s');
    if s.commit.TakeInput? && s.pending != [] {
      InOrderTake(c, s, s');
    } else if s.commit.Registered? && !c.Full(s.inputQueue) {
      InOrderEnqueue(c, s, s');
    } else {
      CommitMovesNothing(c, s, s');
      Reassociate(CommitIds(s.h.commits), s.commit.Held(), s.pending);
      Reassociate(CommitIds(s.h.commits), s'.commit.Held(), s'.pending);
    }
  }

  lemma Reassociate(a: seq<int>, b: seq<int>, c: seq<int>)
    ensures a + b + c == a + (b + c)
  {
  }

  lemma InOrderTake(c: Config, s: State, s': State)
    requires InOrder(s) && CommitStep(c, s) == Some(s') && s.commit.TakeInput? && s.pending != []
    ensures InOrder(s')
  {
    assert s'.h == s.h && s'.commit.Held() == [s.pending[0]] && s.commit.Held() == [];
    assert s.pending == [s.pending[0]] + s'.pending;
  }

  lemma InOrderEnqueue(c: Config, s: State, s': State)
    requires InOrder(s) && CommitStep(c, s) == Some(s') && s.commit.Registered? && !c.Full(s.inputQueue)
    ensures InOrder(s')
  {
    assert s'.pending == s.pending && s'.commit.Held() == [] && s'.h.submitted == s.h.submitted;
    assert CommitIds(s'.h.commits) == CommitIds(s.h.commits) + s.commit.Held();
  }

  lemma CommitMovesNothing(c: Config, s: State, s': State)
    requires CommitStep(c, s) == Some(s')
    requires !(s.commit.TakeInput? && s.pending != []) && !(s.commit.Registered? && !c.Full(s.inputQueue))
    ensures s'.h.commits == s.h.commits && s'.inputQueue == s.inputQueue
    ensures s'.commit.Held() + s'.pending == s.commit.Held() + s.pending
  {
    if s.commit.PutBack? {
      assert s.commit.Held() == [s.commit.id] && s'.commit.Held() == [] && s'.pending == [s.commit.id] + s.pending;
    } else {
      CommitHolds(c, s, s');
    }
  }

  lemma CommitHolds(c: Config, s: State, s': State)
    requires CommitStep(c, s) == Some(s') && !s.commit.PutBack?
    requires !(s.commit.TakeInput? && s.pending != []) && !(s.commit.Registered? && !c.Full(s.inputQueue))
    ensures s'.h.commits == s.h.commits && s'.inputQueue == s.inputQueue
    ensures s'.commit.Held() == s.commit.Held() && s'.pending == s.pending
  {
  }

  lemma InOrderOther(c: Config, s: State, a: Action, s': State)
    requires InOrder(s) && Next(c, s, a) == Some(s') && !a.CommitThread? && !a.RunnerLoop?
    ensures InOrder(s')
  {
    OtherFrame(c, s, a, s');
    OtherSubmits(c, s, a, s');
  }

  lemma OtherSubmits(c: Config, s: State, a: Action, s': State)
    requires Next(c, s, a) == Some(s') && !a.CommitThread? && !a.RunnerLoop?
    ensures var more := if a.Client? && a.a.Submit? then [a.a.id] else [];
            s'.pending == s.pending + more && s'.h.submitted == s.h.submitted + more
  {
    match a
    case Client(ca) => ClientSubmits(s, ca, s');
    case FetchThread => FetchFrame(s, s');
    case FetchTimeout => FetchFrame(s, s');
    case _ =>
  }

  lemma ClientSubmits(s: State, a: ClientAction, s': State)
    requires ClientStep(s, a) == Some(s')
    ensures var more := if a.Submit? then [a.id] else [];
            s'.pending == s.pending + more && s'.h.submitted == s.h.submitted + more
  {
  }

  /** Ids reach the runner in the order of submission, even when a full queue sends one back. */
  lemma {:induction false} SubmissionOrder(c: Config, acts: seq<Action>, s: State)
    requires Run(c, acts) == Some(s)
    ensures CommitIds(s.h.commits) + s.commit.Held() + s.pending == s.h.submitted
  {
    if acts == [] {
    } else {
      var before := Run(c, acts[..|acts| - 1]).value;
      SubmissionOrder(c, acts[..|acts| - 1], before);
      match acts[|acts| - 1]
      case CommitThread => InOrderCommit(c, before, s);
      case RunnerLoop(r) => RunnerFrame(c, before, r, s);
      case a => InOrderOther(c, before, a, s);
    }
  }

  // ---------------------------------------------------------------- what entered the runner

  /** Every committed id is in the runner or was harvested. */
  ghost predicate CommittedAccounted(s: State) {
    multiset(CommitIds(s.h.commits)) == PipelineRunner.InRunner(s) + multiset(Ids(s.h.harvested))
  }

  lemma AccountedCommit(c: Config, s: State, s': State)
    requires CommittedAccounted(s) && CommitStep(c, s) == Some(s')
    ensures CommittedAccounted(s')
  {
    CommitFrame(c, s, s');
    if s.commit.Registered? && !c.Full(s.inputQueue) {
      assert s'.inputQueue == s.inputQueue + [s.commit.id];
      assert CommitIds(s'.h.commits) == CommitIds(s.h.commits) + [s.commit.id];
    } else {
      CommitEnqueuesNothing(c, s, s');
    }
  }

  lemma CommitEnqueuesNothing(c: Config, s: State, s': State)
    requires CommitStep(c, s) == Some(s') && !(s.commit.Registered? && !c.Full(s.inputQueue))
    ensures s'.h.commits == s.h.commits && s'.inputQueue == s.inputQueue
  {
  }

  lemma AccountedRunner(c: Config, s: State, a: RunnerAction, s': State)
    requires CommittedAccounted(s) && RunnerStep(c, s, a) == Some(s')
    requires s.runner.DrainGet? && s.inputQueue != [] ==> s.inputQueue[0] !in EntryIds(s.running)
    ensures CommittedAccounted(s')
  {
    RunnerFrame(c, s, a, s');
    if a.Pick? {
      AccountedPick(c, s, a.i, s');
    } else if s'.runner.Dead? {
      assert s'.running == s.running && s'.inputQueue == s.inputQueue && s'.h.harvested == s.h.harvested;
    } else if a.Proceed? && s.runner.Release? {
      assert s'.running == s.running && s'.inputQueue == s.inputQueue && s'.h.harvested == s.h.harvested;
    } else {
      PipelineRunner.SameIds(c, s, a, s');
      assert s'.h.harvested == s.h.harvested;
    }
  }

  lemma AccountedPick(c: Config, s: State, i: nat, s': State)
    requires RunnerStep(c, s, Pick(i)) == Some(s')
    ensures PipelineRunner.InRunner(s) + multiset(Ids(s.h.harvested))
         == PipelineRunner.InRunner(s') + multiset(Ids(s'.h.harvested))
  {
    assert s'.inputQueue == s.inputQueue;
    EntryIdsRemoveAt(s.running, i);
    if s'.runner.Dead? {
      assert s'.h.harvested == s.h.harvested && s'.running == RemoveAt(s.running, i) + [s.running[i]];
      assert EntryIds(s'.running) == EntryIds(RemoveAt(s.running, i)) + [s.running[i].id];
    } else {
      assert s'.running == RemoveAt(s.running, i);
      assert Ids(s'.h.harvested) == Ids(s.h.harvested) + [s.running[i].id];
    }
  }

  lemma {:induction false} CommittedIsAccounted(c: Config, acts: seq<Action>, s: State)
    requires Run(c, acts) == Some(s)
    ensures CommittedAccounted(s)
  {
    if acts == [] {
    } else {
      var init := acts[..|acts| - 1];
      var before := Run(c, init).value;
      CommittedIsAccounted(c, init, before);
      match acts[|acts| - 1]
      case CommitThread => AccountedCommit(c, before, s);
      case RunnerLoop(r) =>
        PipelineRunner.NoDuplicateWhileDraining(c, init, before);
        AccountedRunner(c, before, r, s);
      case a => OtherFrame(c, before, a, s);
    }
  }

  // ---------------------------------------------------------------- what left the runner

  /** Results in the fetch thread's hand. */
  function Fetching(s: State): seq<TaskResult> {
    if s.fetch.Collect? || s.fetch.Store? then s.fetch.got else []
  }

  /** Results the client has drained and not yet divided into delivered and put back. */
  function InClientHand(s: State): seq<TaskResult> { if s.client.Drained? then s.client.got else [] }

  /** All places after the runner. */
  function AfterRunner(s: State): seq<TaskResult> {
    s.outputQueue + Fetching(s) + s.pendingResults + InClientHand(s) + Results(s.h.delivered) + s.h.lost
  }

  ghost predicate HarvestAccounted(s: State) { multiset(s.h.harvested) == multiset(AfterRunner(s)) }

  function ResultBag(out: seq<TaskResult>, f: seq<TaskResult>, p: seq<TaskResult>, d: seq<TaskResult>,
                     del: seq<TaskResult>, lost: seq<TaskResult>): (b: multiset<TaskResult>)
  {
    multiset(out) + multiset(f) + multiset(p) + multiset(d) + multiset(del) + multiset(lost)
  }

  lemma AfterRunnerBag(s: State)
    ensures multiset(AfterRunner(s))
         == ResultBag(s.outputQueue, Fetching(s), s.pendingResults, InClientHand(s), Results(s.h.delivered), s.h.lost)
  {
  }

  lemma AccountedHarvest(c: Config, s: State, a: RunnerAction, s': State)
    requires HarvestAccounted(s) && RunnerStep(c, s, a) == Some(s')
    ensures HarvestAccounted(s')
  {
    AfterRunnerBag(s);
    AfterRunnerBag(s');
    RunnerFrame(c, s, a, s');
    if a.Pick? && !s'.runner.Dead? {
      var r := HarvestsOne(c, s, a.i, s');
      assert multiset(s'.h.harvested) == multiset(s.h.harvested) + multiset{r};
      assert multiset(s'.outputQueue) == multiset(s.outputQueue) + multiset{r};
    } else {
      HarvestsNothing(c, s, a, s');
    }
  }

  lemma HarvestsOne(c: Config, s: State, i: nat, s': State) returns (r: TaskResult)
    requires RunnerStep(c, s, Pick(i)) == Some(s') && !s'.runner.Dead?
    ensures s'.outputQueue == s.outputQueue + [r] && s'.h.harvested == s.h.harvested + [r]
    ensures s.running[i].status.Done? && r.accepted == s.running[i].status.accepted
    ensures s'.running == RemoveAt(s.running, i) && s'.stat == s.stat
  {
    var e := s.running[i];
    r := TaskResult(e.id, e.createTime, e.status.accepted);
  }

  lemma HarvestsNothing(c: Config, s: State, a: RunnerAction, s': State)
    requires RunnerStep(c, s, a) == Some(s') && (!a.Pick? || s'.runner.Dead?)
    ensures s'.outputQueue == s.outputQueue && s'.h.harvested == s.h.harvested
  {
  }

  /** Nothing is overwritten when results are stored. */
  ghost predicate StoresApart(s: State, rs: seq<TaskResult>) {
    DictPutAll(s.pendingResults, rs) == s.pendingResults + rs
  }

  lemma AccountedFetch(s: State, s': State)
    requires HarvestAccounted(s) && FetchStep(s) == Some(s')
    requires s.fetch.Store? ==> StoresApart(s, s.fetch.got)
    ensures HarvestAccounted(s')
  {
    AfterRunnerBag(s);
    AfterRunnerBag(s');
    FetchFrame(s, s');
    if s.fetch.Collect? {
      FetchOne(s, s');
    } else if s.fetch.Store? {
      assert s'.pendingResults == s.pendingResults + s.fetch.got && s'.outputQueue == s.outputQueue;
      assert s'.h == s.h && Fetching(s') == [];
    } else {
      FetchIdle(s, s');
    }
  }

  lemma FetchOne(s: State, s': State)
    requires FetchStep(s) == Some(s') && s.fetch.Collect?
    ensures multiset(s'.outputQueue) + multiset(Fetching(s')) == multiset(s.outputQueue) + multiset(Fetching(s))
    ensures s'.pendingResults == s.pendingResults && s'.h == s.h
  {
    assert s.outputQueue == [s.outputQueue[0]] + s'.outputQueue;
    assert Fetching(s') == Fetching(s) + [s.outputQueue[0]];
  }

  lemma FetchIdle(s: State, s': State)
    requires FetchStep(s) == Some(s') && (s.fetch.Poll? || s.fetch.Announce?)
    ensures s'.outputQueue == s.outputQueue && s'.pendingResults == s.pendingResults
    ensures Fetching(s') == [] && Fetching(s) == [] && s'.h.lost == s.h.lost
  {
  }

  lemma AccountedTimeout(s: State, s': State)
    requires HarvestAccounted(s) && TimeoutStep(s) == Some(s')
    ensures HarvestAccounted(s')
  {
    AfterRunnerBag(s);
    AfterRunnerBag(s');
    assert s'.h.lost == s.h.lost + Fetching(s) && Fetching(s') == [];
    assert s'.h.harvested == s.h.harvested && s'.h.delivered == s.h.delivered && s'.client == s.client;
  }

  lemma AccountedClient(s: State, a: ClientAction, s': State)
    requires HarvestAccounted(s) && ClientStep(s, a) == Some(s')
    requires s.client.Drained? && |s.client.got| >= s.client.count ==>
             StoresApart(s, SortByTime(s.client.got)[s.client.count..])
    ensures HarvestAccounted(s')
  {
    AfterRunnerBag(s);
    AfterRunnerBag(s');
    ClientFrame(s, a, s');
    ClientMoves(s, a, s');
    Regroup(multiset(s.outputQueue) + multiset(Fetching(s)), multiset(s.h.lost),
            multiset(s.pendingResults), multiset(InClientHand(s)), multiset(Results(s.h.delivered)),
            multiset(s'.pendingResults), multiset(InClientHand(s')), multiset(Results(s'.h.delivered)));
  }

  lemma Regroup<T>(front: multiset<T>, back: multiset<T>, p: multiset<T>, d: multiset<T>, del: multiset<T>,
                   p': multiset<T>, d': multiset<T>, del': multiset<T>)
    requires p + d + del == p' + d' + del'
    ensures front + p + d + del + back == front + p' + d' + del' + back
  {
    assert front + p + d + del == front + (p + d + del);
    assert front + p' + d' + del' == front + (p' + d' + del');
  }

  lemma ClientMoves(s: State, a: ClientAction, s': State)
    requires ClientStep(s, a) == Some(s')
    requires s.client.Drained? && |s.client.got| >= s.client.count ==>
             StoresApart(s, SortByTime(s.client.got)[s.client.count..])
    ensures multiset(s'.pendingResults) + multiset(InClientHand(s')) + multiset(Results(s'.h.delivered))
         == multiset(s.pendingResults) + multiset(InClientHand(s)) + multiset(Results(s.h.delivered))
  {
    if s.client.Drained? {
      ClientDivides(s, a, s', SortByTime(s.client.got));
    } else if s.client.Free? && a.WaitForTask? {
      ClientTakesOne(s, a.id, s');
    } else if s.client.Free? && a.WaitResults? {
      assert s'.pendingResults == [] && InClientHand(s') == s.pendingResults && s'.h == s.h;
    } else {
      ClientMovesNothing(s, a, s');
    }
  }

  lemma ClientDivides(s: State, a: ClientAction, s': State, sorted: seq<TaskResult>)
    requires ClientStep(s, a) == Some(s') && s.client.Drained?
    requires sorted == SortByTime(s.client.got) && StoresApart(s, sorted[s.client.count..])
    ensures multiset(s'.pendingResults) + multiset(InClientHand(s')) + multiset(Results(s'.h.delivered))
         == multiset(s.pendingResults) + multiset(InClientHand(s)) + multiset(Results(s.h.delivered))
  {
    var count := s.client.count;
    assert s'.pendingResults == s.pendingResults + sorted[count..];
    assert s'.h.delivered == s.h.delivered + Stamp(sorted[..count], s.version);
    assert InClientHand(s') == [];
    DeliveredAppend(s.h.delivered, sorted[..count], s.version);
    Divide(s.pendingResults, s.client.got, Results(s.h.delivered), sorted, count);
  }

  lemma Divide(p: seq<TaskResult>, got: seq<TaskResult>, del: seq<TaskResult>, sorted: seq<TaskResult>, count: nat)
    requires multiset(sorted) == multiset(got) && count <= |sorted|
    ensures multiset(p + sorted[count..]) + multiset{} + multiset(del + sorted[..count])
         == multiset(p) + multiset(got) + multiset(del)
  {
    assert sorted == sorted[..count] + sorted[count..];
  }

  lemma ClientTakesOne(s: State, t: int, s': State)
    requires ClientStep(s, WaitForTask(t)) == Some(s') && s.client.Free?
    ensures multiset(s'.pendingResults) + multiset(InClientHand(s')) + multiset(Results(s'.h.delivered))
         == multiset(s.pendingResults) + multiset(InClientHand(s)) + multiset(Results(s.h.delivered))
  {
    var i := IndexOf(Ids(s.pendingResults), t);
    assert s'.pendingResults == RemoveAt(s.pendingResults, i) && InClientHand(s') == [];
    DeliveredAppend(s.h.delivered, [s.pendingResults[i]], s.version);
  }

  lemma ClientMovesNothing(s: State, a: ClientAction, s': State)
    requires ClientStep(s, a) == Some(s') && !s.client.Drained?
    requires !(s.client.Free? && (a.WaitForTask? || a.WaitResults?))
    ensures s'.pendingResults == s.pendingResults && s'.h.delivered == s.h.delivered && !s'.client.Drained?
  {
  }

  lemma DeliveredAppend(ds: seq<Delivery>, rs: seq<TaskResult>, version: int)
    ensures Results(ds + Stamp(rs, version)) == Results(ds) + rs
  {
  }

  // ---------------------------------------------------------------- distinct ids

  /** The hypothesis on the client: no id is submitted twice (`TaskIdGenerator` counts up). */
  ghost predicate FreshIds(s: State) { AtMostOnce(multiset(s.h.submitted)) }

  lemma HarvestedOnce(s: State)
    requires FreshIds(s) && InOrder(s) && CommittedAccounted(s) && HarvestAccounted(s)
    ensures AtMostOnce(multiset(Ids(AfterRunner(s))))
  {
    IdsOfBag(s.h.harvested, AfterRunner(s));
    forall x ensures multiset(Ids(AfterRunner(s)))[x] <= 1 {
      assert multiset(s.h.submitted)[x] <= 1;
      assert multiset(CommitIds(s.h.commits) + s.commit.Held() + s.pending)[x]
          == multiset(CommitIds(s.h.commits))[x] + multiset(s.commit.Held())[x] + multiset(s.pending)[x];
    }
  }

  lemma IdsOfFive(a: seq<TaskResult>, b: seq<TaskResult>, c: seq<TaskResult>, d: seq<TaskResult>, e: seq<TaskResult>)
    ensures multiset(Ids(a + b + c + d + e))
         == multiset(Ids(a)) + multiset(Ids(b)) + multiset(Ids(c)) + multiset(Ids(d)) + multiset(Ids(e))
  {
    IdsAppend(a, b);
    IdsAppend(a + b, c);
    IdsAppend(a + b + c, d);
    IdsAppend(a + b + c + d, e);
  }

  lemma DisjointParts(a: seq<TaskResult>, b: seq<TaskResult>, c: seq<TaskResult>, d: seq<TaskResult>,
                      e: seq<TaskResult>)
    requires AtMostOnce(multiset(Ids(a + b + c + d + e)))
    ensures AtMostOnce(multiset(Ids(c)) + multiset(Ids(b)))
    ensures AtMostOnce(multiset(Ids(c)) + multiset(Ids(d)))
  {
    IdsOfFive(a, b, c, d, e);
    forall x ensures (multiset(Ids(c)) + multiset(Ids(b)))[x] <= 1 && (multiset(Ids(c)) + multiset(Ids(d)))[x] <= 1 {
      assert multiset(Ids(a + b + c + d + e))[x] <= 1;
    }
  }

  lemma StoringIsSafe(s: State)
    requires AtMostOnce(multiset(Ids(AfterRunner(s))))
    ensures StoresApart(s, Fetching(s))
    ensures forall count: nat :: count <= |InClientHand(s)| ==> StoresApart(s, SortByTime(InClientHand(s))[count..])
  {
    var out, f, p, d := s.outputQueue, Fetching(s), s.pendingResults, InClientHand(s);
    var rest := Results(s.h.delivered) + s.h.lost;
    assert AfterRunner(s) == out + f + p + d + rest;
    DisjointParts(out, f, p, d, rest);
    DictPutAllFresh(p, f);
    forall count: nat | count <= |d| ensures StoresApart(s, SortByTime(d)[count..]) {
      IdsOfBag(SortByTime(d), d);
      TailFresh(p, SortByTime(d), count);
      DictPutAllFresh(p, SortByTime(d)[count..]);
    }
  }

  lemma TailFresh(p: seq<TaskResult>, d: seq<TaskResult>, count: nat)
    requires AtMostOnce(multiset(Ids(p)) + multiset(Ids(d))) && count <= |d|
    ensures AtMostOnce(multiset(Ids(p)) + multiset(Ids(d[count..])))
  {
    assert Ids(d) == Ids(d[..count]) + Ids(d[count..]);
    forall x ensures (multiset(Ids(p)) + multiset(Ids(d[count..])))[x] <= 1 {
      assert (multiset(Ids(p)) + multiset(Ids(d)))[x] <= 1;
    }
  }

  lemma FreshBefore(c: Config, s: State, a: Action, s': State)
    requires Next(c, s, a) == Some(s') && FreshIds(s')
    ensures FreshIds(s)
  {
    SubmittedGrows(c, s, a, s');
    forall x ensures multiset(s.h.submitted)[x] <= 1 {
      assert s'.h.submitted == s.h.submitted + s'.h.submitted[|s.h.submitted|..];
      assert multiset(s'.h.submitted)[x] <= 1;
    }
  }

  lemma SubmittedGrows(c: Config, s: State, a: Action, s': State)
    requires Next(c, s, a) == Some(s')
    ensures s.h.submitted <= s'.h.submitted
  {
    match a
    case CommitThread => CommitFrame(c, s, s');
    case RunnerLoop(r) => RunnerFrame(c, s, r, s');
    case _ => OtherSubmits(c, s, a, s');
  }

  lemma {:induction false} HarvestIsAccounted(c: Config, acts: seq<Action>, s: State)
    requires Run(c, acts) == Some(s) && FreshIds(s)
    ensures HarvestAccounted(s)
  {
    if acts == [] {
    } else {
      var init, a := acts[..|acts| - 1], acts[|acts| - 1];
      var before := Run(c, init).value;
      FreshBefore(c, before, a, s);
      HarvestIsAccounted(c, init, before);
      SubmissionOrder(c, init, before);
      CommittedIsAccounted(c, init, before);
      HarvestedOnce(before);
      StoringIsSafe(before);
      AccountedStep(c, before, a, s);
    }
  }

  lemma AccountedStep(c: Config, s: State, a: Action, s': State)
    requires HarvestAccounted(s) && Next(c, s, a) == Some(s')
    requires StoresApart(s, Fetching(s))
    requires forall count: nat :: count <= |InClientHand(s)| ==> StoresApart(s, SortByTime(InClientHand(s))[count..])
    ensures HarvestAccounted(s')
  {
    match a
    case CommitThread => CommitFrame(c, s, s');
    case RunnerLoop(r) => AccountedHarvest(c, s, r, s');
    case FetchThread => AccountedFetch(s, s');
    case FetchTimeout => AccountedTimeout(s, s');
    case Client(ca) => AccountedClient(s, ca, s');
    case SetVersion(v) =>
  }

  // ---------------------------------------------------------------- exactly once

  /** How often a task is found, over all places. */
  function Found(s: State, t: int): nat {
    multiset(s.pending)[t] + multiset(s.commit.Held())[t] + multiset(s.inputQueue)[t]
    + multiset(EntryIds(s.running))[t] + multiset(Ids(s.outputQueue))[t] + multiset(Ids(Fetching(s)))[t]
    + multiset(Ids(s.pendingResults))[t] + multiset(Ids(InClientHand(s)))[t]
    + multiset(Ids(Results(s.h.delivered)))[t]
  }

  /** Exactly-once delivery. With fresh ids, every submitted task is in exactly one of: pending inputs,
  the commit thread's hand, input queue, running table, output queue, the fetch thread's hand, pending
  results, the client's hand, delivered; unless a fetch that timed out half-way discarded it. And
  nothing is anywhere that was not submitted. */
  lemma ExactlyOnce(c: Config, acts: seq<Action>, s: State, t: int)
    requires Run(c, acts) == Some(s) && FreshIds(s)
    ensures t !in s.h.submitted ==> Found(s, t) == 0
    ensures t in s.h.submitted ==> Found(s, t) == (if t in Ids(s.h.lost) then 0 else 1)
  {
    SubmissionOrder(c, acts, s);
    CommittedIsAccounted(c, acts, s);
    HarvestIsAccounted(c, acts, s);
    IdsOfBag(s.h.harvested, AfterRunner(s));
    AfterRunnerIds(s);
    assert multiset(s.h.submitted)[t] <= 1;
    assert multiset(s.h.submitted)[t]
        == multiset(CommitIds(s.h.commits))[t] + multiset(s.commit.Held())[t] + multiset(s.pending)[t];
    assert Found(s, t) + multiset(Ids(s.h.lost))[t] == multiset(s.h.submitted)[t];
  }

  lemma AfterRunnerIds(s: State)
    ensures multiset(Ids(AfterRunner(s)))
         == multiset(Ids(s.outputQueue)) + multiset(Ids(Fetching(s))) + multiset(Ids(s.pendingResults))
          + multiset(Ids(InClientHand(s))) + multiset(Ids(Results(s.h.delivered))) + multiset(Ids(s.h.lost))
  {
    IdsOfFive(s.outputQueue, Fetching(s), s.pendingResults, InClientHand(s), Results(s.h.delivered));
    IdsAppend(s.outputQueue + Fetching(s) + s.pendingResults + InClientHand(s) + Results(s.h.delivered), s.h.lost);
  }

  /** No fetch of the run timed out with results in hand. */
  ghost predicate NoPartialTimeout(c: Config, acts: seq<Action>)
  {
    acts == [] ||
    (var before := Run(c, acts[..|acts| - 1]);
     && NoPartialTimeout(c, acts[..|acts| - 1])
     && !(acts[|acts| - 1].FetchTimeout? && before.Some? && before.value.fetch.Collect?
        && before.value.fetch.got != []))
  }

  /** Results are lost exactly by such timeouts: with fresh ids, delivery is exactly once for every
  task if and only if no fetch timed out with results in hand. */
  lemma {:induction false} LostExactlyByTimeouts(c: Config, acts: seq<Action>, s: State)
    requires Run(c, acts) == Some(s)
    ensures s.h.lost == [] <==> NoPartialTimeout(c, acts)
  {
    if acts == [] {
    } else {
      var a := acts[|acts| - 1];
      var before := Run(c, acts[..|acts| - 1]).value;
      LostExactlyByTimeouts(c, acts[..|acts| - 1], before);
      if !a.FetchTimeout? {
        OthersLoseNothing(c, before, a, s);
      }
    }
  }

  lemma OthersLoseNothing(c: Config, s: State, a: Action, s': State)
    requires Next(c, s, a) == Some(s') && !a.FetchTimeout?
    ensures s'.h.lost == s.h.lost
  {
    match a
    case CommitThread => CommitFrame(c, s, s');
    case RunnerLoop(r) => RunnerFrame(c, s, r, s');
    case Client(ca) => ClientFrame(s, ca, s');
    case _ =>
  }

  lemma AlwaysExactlyOnce(c: Config, acts: seq<Action>, s: State)
    requires Run(c, acts) == Some(s) && FreshIds(s)
    ensures (forall t :: t in s.h.submitted ==> Found(s, t) == 1) <==> NoPartialTimeout(c, acts)
  {
    LostExactlyByTimeouts(c, acts, s);
    forall t ensures t in s.h.submitted ==> Found(s, t) == (if t in Ids(s.h.lost) then 0 else 1) {
      ExactlyOnce(c, acts, s, t);
    }
    if s.h.lost != [] {
      var t := s.h.lost[0].id;
      assert t == Ids(s.h.lost)[0];
      LostWasSubmitted(c, acts, s, t);
    }
  }

  lemma LostWasSubmitted(c: Config, acts: seq<Action>, s: State, t: int)
    requires Run(c, acts) == Some(s) && FreshIds(s) && t in Ids(s.h.lost)
    ensures t in s.h.submitted
  {
    SubmissionOrder(c, acts, s);
    CommittedIsAccounted(c, acts, s);
    HarvestIsAccounted(c, acts, s);
    IdsOfBag(s.h.harvested, AfterRunner(s));
    AfterRunnerIds(s);
    assert t in multiset(Ids(s.h.lost));
    assert t in multiset(CommitIds(s.h.commits));
  }
}
