/** Bounded progress of the event loop and of the fetch thread, each taking its own steps. */
module PipelineLiveness {
  import opened Wrappers
  import opened Tasks
  import opened Pipeline
  import opened PipelineFrames
  import opened PipelineDelivery
  import opened PipelineWakeups
  import PipelineRunner

  // ---------------------------------------------------------------- the loop on its own

  /** The first finished row whose id is in `todo`. */
  function FirstDone(rows: seq<Entry>, todo: set<int>): (i: nat)
    ensures i <= |rows| && (i < |rows| ==> rows[i].id in todo && rows[i].status.Done?)
    ensures i == |rows| ==> forall j :: 0 <= j < |rows| ==> !(rows[j].id in todo && rows[j].status.Done?)
  {
    if rows == [] || (rows[0].id in todo && rows[0].status.Done?) then 0 else 1 + FirstDone(rows[1..], todo)
  }

  /** What the loop does next: it harvests what it has to, lets a scheduled wake-up run, or proceeds. */
  function LoopChoice(s: State): RunnerAction {
    match s.runner
    case Harvest(todo) => Pick(FirstDone(s.running, todo))
    case Blocked => if s.inputEvent then Proceed(s.clock) else Callback
    case _ => Proceed(s.clock)
  }

  /** `k` steps of the loop alone. */
  function LoopAlone(c: Config, s: State, k: nat): Option<State>
    decreases k
  {
    if k == 0 then Some(s)
    else
      match RunnerStep(c, s, LoopChoice(s))
      case None => None
      case Some(s') => LoopAlone(c, s', k - 1)
  }

  // ---------------------------------------------------------------- what the loop has to harvest

  predicate WaitsForTasks(pc: RunnerPc) {
    pc.WaitCheckPaused? || pc.WaitCheckQueue? || pc.ClearEvent? || pc.Recheck? || pc.Blocked?
  }

  /** While it harvests, the finished rows are those still to be harvested; while it waits for new tasks there
  are no rows. */
  ghost predicate LoopSound(s: State) {
    && (s.runner.Harvest? ==> s.runner.todo == DoneIds(s.running) != {})
    && (s.runner.Release? ==> s.runner.todo == DoneIds(s.running))
    && (WaitsForTasks(s.runner) ==> s.running == [])
  }

  lemma DoneIdsRemoveAt(rows: seq<Entry>, i: nat)
    requires i < |rows| && rows[i].status.Done? && AtMostOnce(multiset(EntryIds(rows)))
    ensures DoneIds(RemoveAt(rows, i)) == DoneIds(rows) - {rows[i].id}
  {
    var rest := RemoveAt(rows, i);
    assert rows == rows[..i] + [rows[i]] + rows[i + 1..];
    forall j | 0 <= j < |rows| && j != i ensures rows[j].id != rows[i].id && rows[j] in rest {
      TwoIds(rows, i, j);
      assert j < i ==> rest[j] == rows[j];
      assert j > i ==> rest[j - 1] == rows[j];
    }
    forall t ensures t in DoneIds(rest) <==> t in DoneIds(rows) - {rows[i].id} {
      if t in DoneIds(rest) {
        var e :| e in rest && e.status.Done? && e.id == t;
        assert e in rows[..i] || e in rows[i + 1..];
      }
    }
  }

  lemma TwoIds(rows: seq<Entry>, i: nat, j: nat)
    requires i < |rows| && j < |rows| && i != j && AtMostOnce(multiset(EntryIds(rows)))
    ensures rows[i].id != rows[j].id
  {
    TwoPositions(EntryIds(rows), i, j);
    assert EntryIds(rows)[i] == rows[i].id && EntryIds(rows)[j] == rows[j].id;
  }

  lemma SoundProceed(s: State, now: int, s': State)
    requires LoopSound(s) && ProceedStep(s, now) == Some(s')
    ensures LoopSound(s')
  {
    if s.runner.DrainGet? {
    } else {
      RowsStay(s, now, s');
    }
  }

  lemma RowsStay(s: State, now: int, s': State)
    requires LoopSound(s) && ProceedStep(s, now) == Some(s') && !s.runner.DrainGet?
    ensures s'.running == s.running && (WaitsForTasks(s'.runner) ==> s.running == [])
    ensures !s'.runner.Release? && (s'.runner.Harvest? ==> s'.runner.todo == DoneIds(s.running) != {})
  {
  }

  lemma SoundPick(c: Config, s: State, i: nat, s': State)
    requires LoopSound(s) && RunnerStep(c, s, Pick(i)) == Some(s') && AtMostOnce(multiset(EntryIds(s.running)))
    ensures LoopSound(s')
  {
    DoneIdsRemoveAt(s.running, i);
  }

  lemma SoundLoop(c: Config, s: State, a: RunnerAction, s': State)
    requires LoopSound(s) && RunnerStep(c, s, a) == Some(s') && AtMostOnce(multiset(EntryIds(s.running)))
    ensures LoopSound(s')
  {
    match a
    case Proceed(now) => SoundProceed(s, now, s');
    case Pick(i) => SoundPick(c, s, i, s');
    case Finish(_, _) =>
    case Callback =>
  }

  lemma RowsDistinct(c: Config, acts: seq<Action>, s: State)
    requires Run(c, acts) == Some(s) && !s.runner.Dead?
    ensures AtMostOnce(multiset(EntryIds(s.running)))
  {
    PipelineRunner.ActiveIdsAreSound(c, acts, s);
    forall x ensures multiset(EntryIds(s.running))[x] <= 1 {
      assert PipelineRunner.InRunner(s)[x] <= 1;
    }
  }

  lemma {:induction false} LoopIsSound(c: Config, acts: seq<Action>, s: State)
    requires Run(c, acts) == Some(s)
    ensures LoopSound(s)
  {
    if acts == [] {
    } else {
      var before := Run(c, acts[..|acts| - 1]).value;
      LoopIsSound(c, acts[..|acts| - 1], before);
      match acts[|acts| - 1]
      case CommitThread => CommitFrame(c, before, s);
      case RunnerLoop(r) =>
        if before.runner.Dead? {
          DeadLoopStops(c, before, r);
        } else {
          RowsDistinct(c, acts[..|acts| - 1], before);
          SoundLoop(c, before, r, s);
        }
      case a => OtherFrame(c, before, a, s);
    }
  }

  lemma DeadLoopStops(c: Config, s: State, a: RunnerAction)
    requires s.runner.Dead?
    ensures RunnerStep(c, s, a).None?
  {
  }

  // ---------------------------------------------------------------- the first queued task is started

  /** Nothing keeps the loop from its work. */
  ghost predicate Free(s: State) {
    !s.paused && !s.runner.Dead? && (s.runner.Blocked? ==> s.inputEvent || s.scheduledSets > 0)
  }

  /** How many of its own steps the loop may need to start the first queued task. */
  function StartRank(s: State): nat {
    var done := |DoneIds(s.running)|;
    match s.runner
    case Dead => 0
    case DrainGet => 1
    case DrainCheck => 2
    case Top => 3
    case PausedSleep => 4
    case WaitCheckQueue => 4
    case Recheck => 4
    case WaitCheckPaused => 5
    case ClearEvent => 5
    case Blocked => if s.inputEvent then 6 else 7
    case Harvest(_) => 2 * done + 3
    case Release(_, _) => 2 * done + 4
    case AwaitTasks => 2 * done + 4
    case DrainEnd => 2 * done + 6
  }

  lemma StartStepPick(c: Config, s: State)
    requires LoopSound(s) && s.runner.Harvest? && AtMostOnce(multiset(EntryIds(s.running)))
    ensures RunnerStep(c, s, LoopChoice(s)).Some?
    ensures var s' := RunnerStep(c, s, LoopChoice(s)).value;
            && s'.inputQueue == s.inputQueue && s'.paused == s.paused && s'.scheduledSets == s.scheduledSets
            && (s'.runner.Dead? ||
                (s'.runner.Release? && |DoneIds(s'.running)| == |DoneIds(s.running)| - 1
                 && s'.outputQueue != [] && s'.outputQueue[|s'.outputQueue| - 1].id == s'.runner.id
                 && DoneIds(s'.running) == DoneIds(s.running) - {s'.runner.id}))
  {
    var i := FirstDone(s.running, s.runner.todo);
    var t :| t in DoneIds(s.running);
    var e :| e in s.running && e.status.Done? && e.id == t;
    assert i < |s.running|;
    DoneIdsRemoveAt(s.running, i);
    assert s.running[i].id in DoneIds(s.running);
  }

  lemma StartStepProceed(c: Config, s: State)
    requires LoopSound(s) && Free(s) && s.inputQueue != [] && !s.runner.Harvest?
    requires s.runner.DrainGet? ==> s.inputQueue[0] !in EntryIds(s.running)
    ensures RunnerStep(c, s, LoopChoice(s)).Some?
    ensures var s' := RunnerStep(c, s, LoopChoice(s)).value;
            if s.runner.DrainGet? then s'.running == s.running + [Entry(s.inputQueue[0], s.clock, Working)]
            else Free(s') && s'.inputQueue == s.inputQueue && StartRank(s') < StartRank(s)
  {
  }

  /** One step of the free loop: the first task is started, or the loop stops for a full output queue, or it
  comes closer. */
  lemma StartStep(c: Config, s: State)
    requires LoopSound(s) && Free(s) && s.inputQueue != [] && AtMostOnce(multiset(EntryIds(s.running)))
    requires s.runner.DrainGet? ==> s.inputQueue[0] !in EntryIds(s.running)
    ensures RunnerStep(c, s, LoopChoice(s)).Some?
    ensures var s' := RunnerStep(c, s, LoopChoice(s)).value;
            || s'.runner.Dead?
            || (s.runner.DrainGet? && s'.running == s.running + [Entry(s.inputQueue[0], s.clock, Working)])
            || (!s.runner.DrainGet? && Free(s') && s'.inputQueue == s.inputQueue && StartRank(s') < StartRank(s))
  {
    if s.runner.Harvest? {
      StartStepPick(c, s);
    } else {
      StartStepProceed(c, s);
    }
  }

  ghost predicate StartedBy(c: Config, s: State, k: nat, t: int) {
    LoopAlone(c, s, k).Some? && var r := LoopAlone(c, s, k).value; r.runner.Dead? || t in EntryIds(r.running)
  }

  lemma StartedLater(c: Config, s: State, s': State, k: nat, t: int)
    requires RunnerStep(c, s, LoopChoice(s)) == Some(s') && StartedBy(c, s', k, t)
    ensures StartedBy(c, s, k + 1, t)
  {
  }

  lemma StartedNow(c: Config, s: State, s': State, t: int)
    requires RunnerStep(c, s, LoopChoice(s)) == Some(s') && (s'.runner.Dead? || t in EntryIds(s'.running))
    ensures StartedBy(c, s, 1, t)
  {
    assert LoopAlone(c, s', 0) == Some(s');
    StartedLater(c, s, s', 0, t);
  }

  lemma LastRow(rows: seq<Entry>, e: Entry)
    ensures e.id in EntryIds(rows + [e])
  {
    assert EntryIds(rows + [e])[|rows|] == e.id;
  }

  lemma OneMoreAction(c: Config, acts: seq<Action>, s: State, a: Action, s': State)
    requires Run(c, acts) == Some(s) && Next(c, s, a) == Some(s')
    ensures Run(c, acts + [a]) == Some(s')
  {
    assert (acts + [a])[..|acts|] == acts;
  }

  /** What the loop needs to know about its state. */
  lemma LoopFacts(c: Config, acts: seq<Action>, s: State)
    requires Run(c, acts) == Some(s) && !s.runner.Dead?
    ensures LoopSound(s) && AtMostOnce(multiset(EntryIds(s.running)))
    ensures s.runner.DrainGet? && s.inputQueue != [] ==> s.inputQueue[0] !in EntryIds(s.running)
  {
    LoopIsSound(c, acts, s);
    RowsDistinct(c, acts, s);
    PipelineRunner.NoDuplicateWhileDraining(c, acts, s);
  }

  lemma {:induction false} FreeLoopStarts(c: Config, acts: seq<Action>, s: State) returns (k: nat)
    requires Run(c, acts) == Some(s) && Free(s) && s.inputQueue != []
    ensures k <= StartRank(s) && StartedBy(c, s, k, s.inputQueue[0])
    decreases StartRank(s)
  {
    LoopFacts(c, acts, s);
    StartStep(c, s);
    var a := LoopChoice(s);
    var s' := RunnerStep(c, s, a).value;
    if s'.runner.Dead? || s.runner.DrainGet? {
      k := 1;
      RankIsPositive(s);
      LastRow(s.running, Entry(s.inputQueue[0], s.clock, Working));
      StartedNow(c, s, s', s.inputQueue[0]);
    } else {
      OneMoreAction(c, acts, s, RunnerLoop(a), s');
      k := FreeLoopStarts(c, acts + [RunnerLoop(a)], s');
      StartedLater(c, s, s', k, s.inputQueue[0]);
      k := k + 1;
    }
  }

  lemma RankIsPositive(s: State)
    requires !s.runner.Dead?
    ensures StartRank(s) >= 1
  {
  }

  /** A live loop that is not paused starts the first queued task within as many steps of its own as `StartRank`
  says, unless it stops for a full output queue. The commit thread must have scheduled the wake-up for what it
  put into the queue, which is its next step. */
  lemma LoopStartsTheFirst(c: Config, acts: seq<Action>, s: State)
    requires Run(c, acts) == Some(s) && !s.paused && !s.runner.Dead? && s.inputQueue != [] && !s.commit.Signalling?
    ensures exists k: nat :: k <= StartRank(s) && StartedBy(c, s, k, s.inputQueue[0])
    ensures StartRank(s) <= 2 * |s.running| + 7
  {
    RunnerWakeup(c, acts, s);
    var k := FreeLoopStarts(c, acts, s);
    DoneIdsCount(s.running);
  }

  lemma {:induction false} DoneIdsCount(rows: seq<Entry>)
    ensures |DoneIds(rows)| <= |rows|
  {
    if rows == [] {
      assert DoneIds(rows) == {};
    } else {
      var init, last := rows[..|rows| - 1], rows[|rows| - 1];
      DoneIdsCount(init);
      assert rows == init + [last];
      assert DoneIds(rows) == DoneIds(init) + (if last.status.Done? then {last.id} else {});
    }
  }

  // ---------------------------------------------------------------- a finished row is harvested

  /** How many of its own steps the loop may need to harvest a finished row. */
  function HarvestRank(s: State): nat {
    var done, queued := 2 * |DoneIds(s.running)|, 2 * |s.inputQueue|;
    match s.runner
    case Harvest(_) => done
    case Release(_, _) => done + 1
    case AwaitTasks => done + 1
    case DrainEnd => done + 2
    case DrainGet => done + queued + 3
    case DrainCheck => done + queued + 4
    case Top => done + queued + 5
    case PausedSleep => done + queued + 6
    case _ => 0
  }

  lemma StartedRowsAreNotDone(rows: seq<Entry>, t: int, now: int)
    ensures DoneIds(rows + [Entry(t, now, Working)]) == DoneIds(rows)
  {
    var more := rows + [Entry(t, now, Working)];
    forall x ensures x in DoneIds(more) <==> x in DoneIds(rows) {
      if x in DoneIds(rows) {
        var e :| e in rows && e.status.Done? && e.id == x;
        assert e in more;
      }
    }
  }

  lemma HarvestStepProceed(c: Config, s: State, t: int)
    requires LoopSound(s) && !s.paused && !s.runner.Dead? && !s.runner.Harvest? && t in DoneIds(s.running)
    requires s.runner.DrainGet? && s.inputQueue != [] ==> s.inputQueue[0] !in EntryIds(s.running)
    ensures RunnerStep(c, s, LoopChoice(s)).Some?
    ensures var s' := RunnerStep(c, s, LoopChoice(s)).value;
            !s'.paused && !s'.runner.Dead? && DoneIds(s'.running) == DoneIds(s.running)
              && HarvestRank(s') < HarvestRank(s)
  {
    if s.runner.DrainGet? && s.inputQueue != [] {
      StartedRowsAreNotDone(s.running, s.inputQueue[0], s.clock);
    }
  }

  lemma HarvestStepPick(c: Config, s: State, t: int)
    requires LoopSound(s) && !s.paused && s.runner.Harvest? && t in DoneIds(s.running)
    requires AtMostOnce(multiset(EntryIds(s.running)))
    ensures RunnerStep(c, s, LoopChoice(s)).Some? && HarvestRank(s) >= 1
    ensures var s' := RunnerStep(c, s, LoopChoice(s)).value;
            || s'.runner.Dead?
            || t in Ids(s'.outputQueue)
            || (!s'.paused && t in DoneIds(s'.running) && HarvestRank(s') < HarvestRank(s))
  {
    StartStepPick(c, s);
    var s' := RunnerStep(c, s, LoopChoice(s)).value;
    if !s'.runner.Dead? && s'.runner.id == t {
      assert Ids(s'.outputQueue)[|s'.outputQueue| - 1] == t;
    }
  }

  /** One step of the loop: the row is harvested, or the loop stops for a full output queue, or it comes
  closer. */
  lemma HarvestStep(c: Config, s: State, t: int)
    requires LoopSound(s) && !s.paused && !s.runner.Dead? && t in DoneIds(s.running)
    requires AtMostOnce(multiset(EntryIds(s.running)))
    requires s.runner.DrainGet? && s.inputQueue != [] ==> s.inputQueue[0] !in EntryIds(s.running)
    ensures RunnerStep(c, s, LoopChoice(s)).Some? && HarvestRank(s) >= 1
    ensures var s' := RunnerStep(c, s, LoopChoice(s)).value;
            || s'.runner.Dead?
            || t in Ids(s'.outputQueue)
            || (!s'.paused && t in DoneIds(s'.running) && HarvestRank(s') < HarvestRank(s))
  {
    if s.runner.Harvest? {
      HarvestStepPick(c, s, t);
    } else {
      HarvestStepProceed(c, s, t);
    }
  }

  ghost predicate HarvestedBy(c: Config, s: State, k: nat, t: int) {
    LoopAlone(c, s, k).Some? && var r := LoopAlone(c, s, k).value; r.runner.Dead? || t in Ids(r.outputQueue)
  }

  lemma HarvestedLater(c: Config, s: State, s': State, k: nat, t: int)
    requires RunnerStep(c, s, LoopChoice(s)) == Some(s') && HarvestedBy(c, s', k, t)
    ensures HarvestedBy(c, s, k + 1, t)
  {
  }

  lemma HarvestedNow(c: Config, s: State, s': State, t: int)
    requires RunnerStep(c, s, LoopChoice(s)) == Some(s') && (s'.runner.Dead? || t in Ids(s'.outputQueue))
    ensures HarvestedBy(c, s, 1, t)
  {
    assert LoopAlone(c, s', 0) == Some(s');
    HarvestedLater(c, s, s', 0, t);
  }

  lemma {:induction false} LoopHarvestsRow(c: Config, acts: seq<Action>, s: State, t: int) returns (k: nat)
    requires Run(c, acts) == Some(s) && !s.paused && !s.runner.Dead? && t in DoneIds(s.running)
    ensures k <= HarvestRank(s) && HarvestedBy(c, s, k, t)
    decreases HarvestRank(s)
  {
    LoopFacts(c, acts, s);
    HarvestStep(c, s, t);
    var a := LoopChoice(s);
    var s' := RunnerStep(c, s, a).value;
    if s'.runner.Dead? || t in Ids(s'.outputQueue) {
      k := 1;
      HarvestedNow(c, s, s', t);
    } else {
      OneMoreAction(c, acts, s, RunnerLoop(a), s');
      k := LoopHarvestsRow(c, acts + [RunnerLoop(a)], s', t);
      HarvestedLater(c, s, s', k, t);
      k := k + 1;
    }
  }

  /** A live loop that is not paused puts the result of a finished row into the output queue within as many steps
  of its own as `HarvestRank` says, unless it stops for a full output queue. */
  lemma LoopHarvests(c: Config, acts: seq<Action>, s: State, t: int)
    requires Run(c, acts) == Some(s) && !s.paused && !s.runner.Dead? && t in DoneIds(s.running)
    ensures exists k: nat :: k <= HarvestRank(s) && HarvestedBy(c, s, k, t)
    ensures HarvestRank(s) <= 2 * |s.running| + 2 * |s.inputQueue| + 6
  {
    var k := LoopHarvestsRow(c, acts, s, t);
    DoneIdsCount(s.running);
  }

  // ---------------------------------------------------------------- a queued result is stored

  /** `k` steps of the fetch thread alone, without a timeout. */
  function FetchAlone(s: State, k: nat): Option<State>
    decreases k
  {
    if k == 0 then Some(s)
    else
      match FetchStep(s)
      case None => None
      case Some(s') => FetchAlone(s', k - 1)
  }

  /** The results on their way to the store, in order. */
  function Lane(s: State): seq<TaskResult> { Fetching(s) + s.outputQueue }

  /** How many of its own steps the fetch thread may need to store the result in place `j` of the lane. */
  function StoreRank(s: State, j: nat): int {
    match s.fetch
    case Poll => (MAX_FETCH_BATCH_SIZE + 3) * (j + 1)
    case Announce => (MAX_FETCH_BATCH_SIZE + 3) * (j + 1) + 1
    case Store(got) => if j < |got| then 1 else (MAX_FETCH_BATCH_SIZE + 3) * (j - |got| + 1) + 2
    case Collect(n, got) =>
      if j < n then n - |got| + 1 else n - |got| + (MAX_FETCH_BATCH_SIZE + 3) * (j - n + 1) + 2
  }

  /** Where that result is after a step. */
  function NextPlace(s: State, j: nat): int { if s.fetch.Store? then j - |s.fetch.got| else j }

  lemma {:induction false} DictPutHas(d: seq<TaskResult>, r: TaskResult, t: int)
    requires t in Ids(d) || t == r.id
    ensures t in Ids(DictPut(d, r))
  {
    if d == [] {
      assert Ids([r])[0] == r.id;
    } else if d[0].id == r.id {
      assert Ids(d) == [d[0].id] + Ids(d[1..]) && Ids([r] + d[1..]) == [r.id] + Ids(d[1..]);
    } else {
      var tail := DictPut(d[1..], r);
      assert Ids(d) == [d[0].id] + Ids(d[1..]) && Ids([d[0]] + tail) == [d[0].id] + Ids(tail);
      if t != d[0].id {
        DictPutHas(d[1..], r, t);
      }
    }
  }

  lemma {:induction false} DictPutAllHas(d: seq<TaskResult>, rs: seq<TaskResult>, t: int)
    requires t in Ids(d) || t in Ids(rs)
    ensures t in Ids(DictPutAll(d, rs))
    decreases |rs|
  {
    if rs == [] {
    } else {
      assert Ids(rs) == [rs[0].id] + Ids(rs[1..]);
      if t in Ids(d) || t == rs[0].id {
        DictPutHas(d, rs[0], t);
      }
      DictPutAllHas(DictPut(d, rs[0]), rs[1..], t);
    }
  }

  ghost predicate CanFetch(s: State, j: nat) {
    FetchCovered(s) && !s.commit.HoldsInputLock() && j < |Lane(s)|
  }

  lemma StoreStepPoll(s: State, j: nat)
    requires CanFetch(s, j) && s.fetch.Poll?
    ensures FetchStep(s).Some?
    ensures var s' := FetchStep(s).value;
            CanFetch(s', j) && Lane(s') == Lane(s) && StoreRank(s', j) < StoreRank(s, j)
  {
    assert Lane(s) == s.outputQueue;
  }

  lemma StoreStepCollect(s: State, j: nat)
    requires CanFetch(s, j) && s.fetch.Collect?
    ensures FetchStep(s).Some?
    ensures var s' := FetchStep(s).value;
            CanFetch(s', j) && Lane(s') == Lane(s) && StoreRank(s', j) < StoreRank(s, j)
  {
    var got, q := s.fetch.got, s.outputQueue;
    assert |Lane(s)| == |got| + |q| && q != [];
    assert got + q == got + [q[0]] + q[1..];
  }

  lemma StoreStepRest(s: State, j: nat)
    requires CanFetch(s, j) && (s.fetch.Announce? || (s.fetch.Store? && j >= |s.fetch.got|))
    ensures FetchStep(s).Some?
    ensures var s', j' := FetchStep(s).value, NextPlace(s, j);
            CanFetch(s', j') && Lane(s')[j'] == Lane(s)[j] && StoreRank(s', j') < StoreRank(s, j)
  {
  }

  lemma StoreStepStores(s: State, j: nat)
    requires CanFetch(s, j) && s.fetch.Store? && j < |s.fetch.got|
    ensures FetchStep(s).Some? && Lane(s)[j].id in Ids(FetchStep(s).value.pendingResults)
  {
    assert Ids(s.fetch.got)[j] == Lane(s)[j].id;
    DictPutAllHas(s.pendingResults, s.fetch.got, Lane(s)[j].id);
  }

  ghost predicate StoredBy(s: State, k: nat, t: int) {
    FetchAlone(s, k).Some? && t in Ids(FetchAlone(s, k).value.pendingResults)
  }

  lemma StoredLater(s: State, s': State, k: nat, t: int)
    requires FetchStep(s) == Some(s') && StoredBy(s', k, t)
    ensures StoredBy(s, k + 1, t)
  {
  }

  lemma RankIsNatural(s: State, j: nat)
    requires FetchCovered(s)
    ensures StoreRank(s, j) >= 1
  {
  }

  lemma {:induction false} FetchStoresAt(s: State, j: nat) returns (k: nat)
    requires CanFetch(s, j)
    ensures k <= StoreRank(s, j) && StoredBy(s, k, Lane(s)[j].id)
    decreases StoreRank(s, j)
  {
    var t := Lane(s)[j].id;
    RankIsNatural(s, j);
    if s.fetch.Store? && j < |s.fetch.got| {
      StoreStepStores(s, j);
      var s' := FetchStep(s).value;
      assert FetchAlone(s', 0) == Some(s');
      StoredLater(s, s', 0, t);
      k := 1;
    } else {
      match s.fetch {
        case Poll => StoreStepPoll(s, j);
        case Collect(_, _) => StoreStepCollect(s, j);
        case _ => StoreStepRest(s, j);
      }
      var s', j' := FetchStep(s).value, NextPlace(s, j);
      RankIsNatural(s', j');
      k := FetchStoresAt(s', j');
      StoredLater(s, s', k, t);
      k := k + 1;
    }
  }

  /** A result in the output queue is stored within as many steps of the fetch thread as `StoreRank` says, if no
  fetch times out and the commit thread does not hold the lock that the notify needs. */
  lemma FetchStores(c: Config, acts: seq<Action>, s: State, i: nat)
    requires Run(c, acts) == Some(s) && i < |s.outputQueue| && !s.commit.HoldsInputLock()
    ensures exists k: nat :: k <= StoreRank(s, |Fetching(s)| + i) && StoredBy(s, k, s.outputQueue[i].id)
  {
    FetchIsCovered(c, acts, s);
    var j := |Fetching(s)| + i;
    assert Lane(s)[j] == s.outputQueue[i];
    var k := FetchStoresAt(s, j);
  }
}
