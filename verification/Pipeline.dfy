/** The asynchronous rollout pipeline as a state machine of atomic steps
(areal/infra/workflow_executor.py, areal/infra/async_task_runner.py, areal/infra/staleness_manager.py).

Four threads take turns in any order: the commit (producer) thread, the event loop of the runner, the
fetch (consumer) thread, and the single client thread. A step is one queue operation, one counter
callback, one read of a shared variable, or one lock section. The commit thread evaluates its guards
variable by variable while it holds `_input_lock`; the other lock sections are single steps that
are enabled only while nobody holds the lock. */
module Pipeline {
  import opened Wrappers
  import opened Arithmetic
  import opened Sequences
  import opened Staleness
  import opened Tasks

  const MAX_FETCH_BATCH_SIZE := 100

  /** `recovered` is what `on_version_recovered` left in the accepted counter (0 for a new run). */
  datatype Config = Config(limits: Limits, maxQueueSize: int, recovered: int, version: int) {
    /** `queue.Queue(maxsize)`: no bound unless the size is positive. */
    predicate Full<T>(q: seq<T>) { maxQueueSize > 0 && |q| >= maxQueueSize }
  }

  // ---------------------------------------------------------------- program counters

  /** The commit thread: `_commit_loop`, `_get_next_task_for_submission` and `AsyncTaskRunner.submit`. */
  datatype CommitPc =
    | Acquire                               // about to take `_input_lock` and evaluate the guard
    | ReadPaused | ReadCapacity             // evaluating, holding the lock
    | TakeInput(version: int)               // saw capacity at `version`, holding the lock
    | GoSleep                               // saw the guard fail, holding the lock
    | Asleep                                // in `_input_cv.wait()`
    | Hand(id: int, version: int)           // popped, about to call `runner.submit`
    | Registered(id: int, version: int)     // id in the runner's active set
    | Signalling(id: int, version: int)     // in the input queue, wake-up not yet scheduled
    | Counting(id: int, version: int)       // wake-up scheduled, not yet counted as running
    | Refused(id: int, version: int)        // `queue.Full`: about to discard the id
    | PutBack(id: int, version: int)        // about to return the task to the front of the inputs
    | FullReadPaused | FullReadCapacity | FullReadQueue | FullGoSleep | FullAsleep | FullAcquire
    | Failed(id: int, version: int)         // duplicate id: the thread has stopped
  {
    predicate HoldsInputLock() {
      || ReadPaused? || ReadCapacity? || TakeInput? || GoSleep?
      || FullReadPaused? || FullReadCapacity? || FullReadQueue? || FullGoSleep?
    }
    /** The task that has left the inputs but is not in the runner. */
    function Held(): seq<int> {
      if Hand? || Registered? || Refused? || PutBack? || Failed? then [id] else []
    }
    /** In the runner but not yet counted by `on_rollout_submitted`. */
    predicate Uncounted() { Signalling? || Counting? }
    predicate WaitsForInput() { GoSleep? || Asleep? }
    predicate WaitsForRoom() { FullGoSleep? || FullAsleep? }
  }

  /** The event loop: `_run_async_loop`, `_drain_pending_inputs`, `_wait_for_new_tasks`. */
  datatype RunnerPc =
    | Top | PausedSleep
    | DrainCheck | DrainGet | DrainEnd
    | WaitCheckPaused | WaitCheckQueue | ClearEvent | Recheck
    | Blocked                               // in `_input_event.wait()`
    | AwaitTasks                            // in `asyncio.wait(tasks)`
    | Harvest(todo: set<int>)               // finished tasks still to be moved to the output queue
    | Release(id: int, todo: set<int>)      // about to remove the id from the active set
    | Dead                                  // output queue full, or a duplicate id while draining

  /** The consumer thread: `_fetch_loop` and `AsyncTaskRunner.wait`. */
  datatype FetchPc =
    | Poll
    | Collect(count: nat, got: seq<TaskResult>)
    | Store(got: seq<TaskResult>)
    | Announce                              // about to notify `_input_cv`

  /** The trainer's thread. */
  datatype ClientPc =
    | Free
    | Register(id: int)                     // enqueued, id not yet in the dispatcher's active set
    | Drained(got: seq<TaskResult>, count: nat)
    | PauseNotify | ResumeSignal | ResumeNotify

  // ---------------------------------------------------------------- state

  datatype State = State(
    version: int, stat: RolloutStat, paused: bool,
    pending: seq<int>, pendingResults: seq<TaskResult>, registered: set<int>,   // dispatcher
    inputQueue: seq<int>, active: set<int>, running: seq<Entry>,                // runner
    outputQueue: seq<TaskResult>, inputEvent: bool, scheduledSets: nat, clock: int,
    commit: CommitPc, runner: RunnerPc, fetch: FetchPc, client: ClientPc,
    h: History)

  /** What has happened; no step depends on it. */
  datatype History = History(
    submitted: seq<int>,                    // in the order of `submit_task_input`
    commits: seq<Commit>,                   // in the order in which they entered the runner
    verdict: map<int, bool>,                // finished workflows: accepted or rejected
    harvested: seq<TaskResult>,             // put into the output queue by the loop
    delivered: seq<Delivery>,               // handed to the client
    lost: seq<TaskResult>,                  // discarded by a fetch that timed out half-way
    raised: bool)                           // version raised since the last `_input_cv.notify()`

  function Init(c: Config): State {
    State(c.version, FRESH.(accepted := c.recovered), false,
          [], [], {},
          [], {}, [], [], true, 0, 0,
          Acquire, Top, Poll, Free,
          History([], [], map[], [], [], [], false))
  }

  // ---------------------------------------------------------------- actions

  datatype RunnerAction =
    | Proceed(now: int)                     // `now` is the clock reading when a task is started
    | Pick(i: nat)                          // harvest row i of the table
    | Finish(i: nat, accepted: bool)        // the workflow of row i ends and reports its verdict
    | Callback                              // a scheduled `_input_event.set()` runs

  datatype ClientAction =
    | Submit(id: int) | Continue | WaitResults(count: nat) | WaitForTask(id: int) | Pause | Resume

  datatype Action =
    | CommitThread
    | RunnerLoop(r: RunnerAction)
    | FetchThread | FetchTimeout
    | Client(a: ClientAction)
    | SetVersion(version: int)

  /** `_input_cv.notify()`: only the commit thread ever waits there. */
  function Notify(s: State): State {
    s.(commit := if s.commit.Asleep? then Acquire
                 else if s.commit.FullAsleep? then FullAcquire
                 else s.commit,
       h := s.h.(raised := false))
  }

  function CommitStep(c: Config, s: State): Option<State> {
    match s.commit
    case Acquire => Some(s.(commit := ReadPaused))
    case ReadPaused => Some(s.(commit := if s.paused then GoSleep else ReadCapacity))
    case ReadCapacity =>
      Some(s.(commit := if Capacity(c.limits, s.stat, s.version) > 0 then TakeInput(s.version) else GoSleep))
    case TakeInput(v) =>
      if s.pending == [] then Some(s.(commit := GoSleep))
      else Some(s.(commit := Hand(s.pending[0], v), pending := s.pending[1..]))
    case GoSleep => Some(s.(commit := Asleep))
    case Hand(t, v) =>
      if t in s.active then Some(s.(commit := Failed(t, v)))
      else Some(s.(commit := Registered(t, v), active := s.active + {t}))
    case Registered(t, v) =>
      if c.Full(s.inputQueue) then Some(s.(commit := Refused(t, v)))
      else Some(s.(commit := Signalling(t, v), inputQueue := s.inputQueue + [t],
                   h := s.h.(commits := s.h.commits + [Commit(t, v)])))
    case Signalling(t, v) => Some(s.(commit := Counting(t, v), scheduledSets := s.scheduledSets + 1))
    case Counting(t, v) => Some(s.(commit := Acquire, stat := s.stat.OnSubmitted()))
    case Refused(t, v) => Some(s.(commit := PutBack(t, v), active := s.active - {t}))
    case PutBack(t, v) => Some(s.(commit := FullReadPaused, pending := [t] + s.pending))
    case FullAcquire => Some(s.(commit := FullReadPaused))
    case FullReadPaused => Some(s.(commit := if s.paused then FullGoSleep else FullReadCapacity))
    case FullReadCapacity =>
      Some(s.(commit := if Capacity(c.limits, s.stat, s.version) > 0 then FullReadQueue else FullGoSleep))
    case FullReadQueue =>
      Some(s.(commit := if |s.inputQueue| < c.maxQueueSize then Acquire else FullGoSleep))
    case FullGoSleep => Some(s.(commit := FullAsleep))
    case Asleep => None
    case FullAsleep => None
    case Failed(_, _) => None
  }

  function DoneIds(es: seq<Entry>): set<int> { set e | e in es && e.status.Done? :: e.id }

  predicate LoopIsIdle(pc: RunnerPc) { pc.Blocked? || pc.AwaitTasks? || pc.PausedSleep? }

  function RunnerStep(c: Config, s: State, a: RunnerAction): Option<State> {
    match a
    case Proceed(now) => ProceedStep(s, now)
    case Pick(i) =>
      if !(s.runner.Harvest? && i < |s.running| && s.running[i].id in s.runner.todo && s.running[i].status.Done?) then
        None
      else
        var e := s.running[i];
        if c.Full(s.outputQueue) then Some(s.(runner := Dead, running := RemoveAt(s.running, i) + [e]))
        else
          var r := TaskResult(e.id, e.createTime, e.status.accepted);
          Some(s.(runner := Release(e.id, s.runner.todo - {e.id}),
                  running := RemoveAt(s.running, i),
                  outputQueue := s.outputQueue + [r],
                  h := s.h.(harvested := s.h.harvested + [r])))
    case Finish(i, accepted) =>
      if !((s.runner.AwaitTasks? || s.runner.PausedSleep?) && i < |s.running| && s.running[i].status.Working?) then None
      else
        var e := s.running[i];
        Some(s.(running := s.running[i := e.(status := Done(accepted))],
                stat := if accepted then s.stat.OnAccepted() else s.stat.OnRejected(),
                h := s.h.(verdict := s.h.verdict[e.id := accepted])))
    case Callback =>
      if LoopIsIdle(s.runner) && s.scheduledSets > 0
      then Some(s.(scheduledSets := s.scheduledSets - 1, inputEvent := true))
      else None
  }

  function ProceedStep(s: State, now: int): Option<State> {
    match s.runner
    case Top => Some(s.(runner := if s.paused then PausedSleep else DrainCheck))
    case PausedSleep => Some(s.(runner := Top))
    case DrainCheck => Some(s.(runner := if s.paused then DrainEnd else DrainGet))
    case DrainGet =>
      if s.inputQueue == [] then Some(s.(runner := DrainEnd))
      else if s.inputQueue[0] in EntryIds(s.running)
      then Some(s.(runner := Dead, inputQueue := s.inputQueue[1..]))
      else if now < s.clock then None
      else Some(s.(runner := DrainCheck, inputQueue := s.inputQueue[1..], clock := now,
                   running := s.running + [Entry(s.inputQueue[0], now, Working)]))
    case DrainEnd => Some(s.(runner := if s.running == [] then WaitCheckPaused else AwaitTasks))
    case WaitCheckPaused => Some(s.(runner := if s.paused then Top else WaitCheckQueue))
    case WaitCheckQueue => Some(s.(runner := if s.inputQueue != [] then Top else ClearEvent))
    case ClearEvent => Some(s.(runner := Recheck, inputEvent := false))
    case Recheck => Some(s.(runner := if s.inputQueue != [] then Top else Blocked))
    case Blocked => if s.inputEvent then Some(s.(runner := WaitCheckPaused)) else None
    case AwaitTasks =>
      Some(s.(runner := if DoneIds(s.running) == {} then Top else Harvest(DoneIds(s.running))))
    case Release(t, todo) =>
      Some(s.(runner := if todo == {} then Top else Harvest(todo), active := s.active - {t}))
    case Harvest(_) => None
    case Dead => None
  }

  function FetchStep(s: State): Option<State> {
    match s.fetch
    case Poll => Some(s.(fetch := Collect(Max(1, Min(|s.outputQueue|, MAX_FETCH_BATCH_SIZE)), [])))
    case Collect(n, got) =>
      if s.outputQueue == [] then None
      else
        var got' := got + [s.outputQueue[0]];
        Some(s.(outputQueue := s.outputQueue[1..],
                fetch := if |got'| >= n then Store(got') else Collect(n, got')))
    case Store(got) => Some(s.(fetch := Announce, pendingResults := DictPutAll(s.pendingResults, got)))
    case Announce =>
      if s.commit.HoldsInputLock() then None else Some(Notify(s).(fetch := Poll))
  }

  /** `AsyncTaskRunner.wait` raises `TimeoutError` and forgets what it had collected. */
  function TimeoutStep(s: State): Option<State> {
    if !s.fetch.Collect? then None
    else Some(s.(fetch := Poll,
                 h := s.h.(lost := s.h.lost + s.fetch.got)))
  }

  function ClientStep(s: State, a: ClientAction): Option<State> {
    match s.client
    case Free =>
      (match a
       case Submit(t) =>
         if s.commit.HoldsInputLock() then None
         else Some(Notify(s).(client := Register(t), pending := s.pending + [t],
                              stat := s.stat.OnEnqueued(),
                              h := Notify(s).h.(submitted := s.h.submitted + [t])))
       case WaitResults(count) =>
         if count == 0 || |s.pendingResults| < count then None
         else Some(s.(client := Drained(s.pendingResults, count), pendingResults := []))
       case WaitForTask(t) =>
         if t !in s.registered || t !in Ids(s.pendingResults) then None
         else
           var i := IndexOf(Ids(s.pendingResults), t);
           Some(s.(pendingResults := RemoveAt(s.pendingResults, i), registered := s.registered - {t},
                   h := s.h.(delivered := s.h.delivered + Stamp([s.pendingResults[i]], s.version))))
       case Pause => Some(s.(client := PauseNotify, paused := true))
       case Resume => Some(s.(client := ResumeSignal, paused := false))
       case Continue => None)
    case Register(t) =>
      if a.Continue? then Some(s.(client := Free, registered := s.registered + {t})) else None
    case Drained(got, count) =>
      if !a.Continue? || |got| < count then None
      else
        var sorted := SortByTime(got);
        var selected, rest := sorted[..count], sorted[count..];
        Some(s.(client := Free, pendingResults := DictPutAll(s.pendingResults, rest),
                registered := s.registered - (set t | t in Ids(selected)),
                h := s.h.(delivered := s.h.delivered + Stamp(selected, s.version))))
    case PauseNotify =>
      if a.Continue? && !s.commit.HoldsInputLock() then Some(Notify(s).(client := Free)) else None
    case ResumeSignal =>
      if a.Continue? then Some(s.(client := ResumeNotify, scheduledSets := s.scheduledSets + 1)) else None
    case ResumeNotify =>
      if a.Continue? && !s.commit.HoldsInputLock() then Some(Notify(s).(client := Free)) else None
  }

  /** The step that action `a` takes in `s`; `None` when it is not enabled. The version never goes
  down. */
  function Next(c: Config, s: State, a: Action): Option<State> {
    match a
    case CommitThread => CommitStep(c, s)
    case RunnerLoop(r) => RunnerStep(c, s, r)
    case FetchThread => FetchStep(s)
    case FetchTimeout => TimeoutStep(s)
    case Client(ca) => ClientStep(s, ca)
    case SetVersion(v) =>
      if v < s.version then None else Some(s.(version := v, h := s.h.(raised := s.h.raised || v > s.version)))
  }

  /** The state after all of `acts`, from the initial state. */
  function Run(c: Config, acts: seq<Action>): Option<State> {
    if acts == [] then Some(Init(c))
    else
      match Run(c, acts[..|acts| - 1])
      case None => None
      case Some(s) => Next(c, s, acts[|acts| - 1])
  }

  /** The states that the actions visit. */
  ghost predicate Visits(c: Config, acts: seq<Action>, visited: seq<State>) {
    |visited| == |acts| + 1 && visited[0] == Init(c) && forall i :: 0 <= i < |acts| ==> Moves(c, acts, visited, i)
  }

  ghost predicate Moves(c: Config, acts: seq<Action>, visited: seq<State>, i: nat)
    requires i < |acts| && i + 1 < |visited|
  {
    Next(c, visited[i], acts[i]) == Some(visited[i + 1])
  }

  ghost predicate Reachable(c: Config, s: State) {
    exists acts, visited :: Visits(c, acts, visited) && visited[|acts|] == s
  }

  lemma {:induction false} VisitsFollowRun(c: Config, acts: seq<Action>, visited: seq<State>, n: nat)
    requires Visits(c, acts, visited) && n <= |acts|
    ensures Run(c, acts[..n]) == Some(visited[n])
  {
    if n == 0 {
    } else {
      VisitsFollowRun(c, acts, visited, n - 1);
      assert acts[..n][..n - 1] == acts[..n - 1];
      assert Moves(c, acts, visited, n - 1);
    }
  }

  lemma {:induction false} RunVisits(c: Config, acts: seq<Action>, s: State)
    requires Run(c, acts) == Some(s)
    ensures Reachable(c, s)
  {
    if acts == [] {
      InitReachable(c);
    } else {
      var n := |acts| - 1;
      var before := Run(c, acts[..n]).value;
      RunVisits(c, acts[..n], before);
      var _ := Step(c, before, acts[n]);
    }
  }

  /** The reachable states are those at the end of a run. */
  lemma ReachableByRun(c: Config, s: State)
    ensures Reachable(c, s) <==> exists acts :: Run(c, acts) == Some(s)
  {
    if Reachable(c, s) {
      var acts, visited :| Visits(c, acts, visited) && visited[|acts|] == s;
      VisitsFollowRun(c, acts, visited, |acts|);
      assert acts[..|acts|] == acts;
    }
    forall acts | Run(c, acts) == Some(s) ensures Reachable(c, s) {
      RunVisits(c, acts, s);
    }
  }

  lemma InitReachable(c: Config)
    ensures Reachable(c, Init(c))
  {
    assert Visits(c, [], [Init(c)]);
  }

  /** One enabled step from a reachable state. */
  lemma Step(c: Config, s: State, a: Action) returns (s': State)
    requires Reachable(c, s) && Next(c, s, a).Some?
    ensures Next(c, s, a) == Some(s') && Reachable(c, s')
  {
    var acts, visited :| Visits(c, acts, visited) && visited[|acts|] == s;
    s' := Next(c, s, a).value;
    OneMoreStep(c, acts, visited, a, s');
  }

  lemma OneMoreStep(c: Config, acts: seq<Action>, visited: seq<State>, a: Action, s': State)
    requires Visits(c, acts, visited) && Next(c, visited[|acts|], a) == Some(s')
    ensures Visits(c, acts + [a], visited + [s'])
  {
    forall i | 0 <= i < |acts + [a]| ensures Moves(c, acts + [a], visited + [s'], i) {
      assert i < |acts| ==> Moves(c, acts, visited, i);
    }
  }
}
