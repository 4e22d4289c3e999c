/** Soundness of the runner's table of active ids, whatever ids are submitted. */
module PipelineRunner {
  import opened Wrappers
  import opened Tasks
  import opened Pipeline
  import opened PipelineFrames

  /** What the invariant is about: the ids in the input queue and in the table of running tasks, the
  active set, the id that the commit thread has reserved but not put into the queue, and the id that
  the loop has moved to the output queue but not yet released. */
  datatype Table = Table(ids: multiset<int>, active: set<int>, reserved: Option<int>, releasing: Option<int>)

  function InRunner(s: State): multiset<int> {
    multiset(s.inputQueue) + multiset(EntryIds(s.running))
  }

  function TableOf(s: State): Table {
    Table(InRunner(s), s.active,
          if s.commit.Registered? || s.commit.Refused? then Some(s.commit.id) else None,
          if s.runner.Release? then Some(s.runner.id) else None)
  }

  ghost predicate Sound(t: Table) {
    && AtMostOnce(t.ids)
    && (forall x :: x in t.ids ==> x in t.active)
    && (t.reserved.Some? ==> t.reserved.value in t.active && t.reserved.value !in t.ids)
    && (t.releasing.Some? ==> t.releasing.value in t.active && t.releasing.value !in t.ids && t.reserved != t.releasing)
  }

  /** The ways in which a step changes the table. */
  datatype Change = Nothing | Reserve(x: int) | Enqueue | Unreserve | Harvested(x: int, left: multiset<int>) | Released

  ghost predicate Changes(t: Table, ch: Change, t': Table) {
    match ch
    case Nothing => t' == t
    case Reserve(x) => x !in t.active && t' == t.(active := t.active + {x}, reserved := Some(x))
    case Enqueue => t.reserved.Some? && t' == t.(ids := t.ids + multiset{t.reserved.value}, reserved := None)
    case Unreserve => t.reserved.Some? && t' == t.(active := t.active - {t.reserved.value}, reserved := None)
    case Harvested(x, left) => t.ids == left + multiset{x} && t.releasing.None?
      && t' == t.(ids := left, releasing := Some(x))
    case Released => t.releasing.Some? && t' == t.(active := t.active - {t.releasing.value}, releasing := None)
  }

  lemma SoundAfter(t: Table, ch: Change, t': Table)
    requires Sound(t) && Changes(t, ch, t')
    ensures Sound(t')
  {
    if ch.Harvested? {
      forall y ensures t'.ids[y] <= 1 {
        assert t.ids[y] <= 1;
      }
      assert t.ids[ch.x] <= 1 && ch.x in t.ids;
    }
  }

  // ---------------------------------------------------------------- every step is one of these changes

  lemma CommitChange(c: Config, s: State, s': State) returns (ch: Change)
    requires CommitStep(c, s) == Some(s')
    ensures Changes(TableOf(s), ch, TableOf(s'))
  {
    ch := Nothing;
    if s.commit.Hand? || s.commit.Refused? {
      ch := ActiveChange(c, s, s');
    } else if s.commit.Registered? {
      ch := QueueChange(c, s, s');
    } else {
      CommitFrame(c, s, s');
      CommitLeavesRunner(c, s, s');
    }
  }

  lemma ActiveChange(c: Config, s: State, s': State) returns (ch: Change)
    requires CommitStep(c, s) == Some(s') && (s.commit.Hand? || s.commit.Refused?)
    ensures Changes(TableOf(s), ch, TableOf(s'))
  {
    assert s'.inputQueue == s.inputQueue && s'.running == s.running && s'.runner == s.runner;
    ch := if s.commit.Refused? then Unreserve
          else if s.commit.id in s.active then Nothing
          else Reserve(s.commit.id);
  }

  lemma QueueChange(c: Config, s: State, s': State) returns (ch: Change)
    requires CommitStep(c, s) == Some(s') && s.commit.Registered?
    ensures Changes(TableOf(s), ch, TableOf(s'))
  {
    assert s'.active == s.active && s'.running == s.running && s'.runner == s.runner;
    ch := if c.Full(s.inputQueue) then Nothing else Enqueue;
  }

  lemma CommitLeavesRunner(c: Config, s: State, s': State)
    requires CommitStep(c, s) == Some(s') && !s.commit.Hand? && !s.commit.Registered? && !s.commit.Refused?
    ensures s'.inputQueue == s.inputQueue && s'.active == s.active
    ensures !s'.commit.Registered? && !s'.commit.Refused?
  {
  }

  lemma RunnerChange(c: Config, s: State, a: RunnerAction, s': State) returns (ch: Change)
    requires RunnerStep(c, s, a) == Some(s') && !s'.runner.Dead?
    ensures Changes(TableOf(s), ch, TableOf(s'))
  {
    RunnerFrame(c, s, a, s');
    if a.Pick? {
      PickChange(c, s, a.i, s');
      ch := Harvested(s.running[a.i].id, InRunner(s'));
    } else if a.Proceed? && s.runner.Release? {
      assert s'.running == s.running && s'.inputQueue == s.inputQueue;
      ch := Released;
    } else {
      SameIds(c, s, a, s');
      ch := Nothing;
    }
  }

  lemma PickChange(c: Config, s: State, i: nat, s': State)
    requires RunnerStep(c, s, Pick(i)) == Some(s') && !s'.runner.Dead? && s'.commit == s.commit
    ensures i < |s.running| && Changes(TableOf(s), Harvested(s.running[i].id, InRunner(s')), TableOf(s'))
  {
    EntryIdsRemoveAt(s.running, i);
    assert s'.running == RemoveAt(s.running, i) && s'.inputQueue == s.inputQueue && s'.active == s.active;
  }

  lemma SameIds(c: Config, s: State, a: RunnerAction, s': State)
    requires RunnerStep(c, s, a) == Some(s') && !s'.runner.Dead? && !a.Pick? && !(a.Proceed? && s.runner.Release?)
    ensures InRunner(s') == InRunner(s) && s'.active == s.active && (s.runner.Release? <==> s'.runner.Release?)
    ensures s.runner.Release? ==> s'.runner == s.runner
  {
    if a.Proceed? && s.runner.DrainGet? && s.inputQueue != [] {
      assert s'.inputQueue == s.inputQueue[1..];
      assert s'.running == s.running + [Entry(s.inputQueue[0], a.now, Working)];
      StartKeepsIds(s.inputQueue, s.running, a.now);
    } else if a.Finish? {
      assert s'.inputQueue == s.inputQueue;
      assert EntryIds(s'.running) == EntryIds(s.running);
    } else {
      RunnerLeavesTable(c, s, a, s');
    }
  }

  lemma RunnerLeavesTable(c: Config, s: State, a: RunnerAction, s': State)
    requires RunnerStep(c, s, a) == Some(s') && !s'.runner.Dead?
    requires a.Callback? || (a.Proceed? && !s.runner.Release? && !(s.runner.DrainGet? && s.inputQueue != []))
    ensures s'.inputQueue == s.inputQueue && s'.running == s.running && s'.active == s.active
    ensures s.runner.Release? <==> s'.runner.Release?
    ensures s.runner.Release? ==> s'.runner == s.runner
  {
  }

  lemma OtherChange(c: Config, s: State, a: Action, s': State)
    requires Next(c, s, a) == Some(s') && !a.CommitThread? && !a.RunnerLoop?
    ensures TableOf(s') == TableOf(s) && s'.runner == s.runner
  {
    OtherFrame(c, s, a, s');
  }

  lemma SoundAfterCommit(c: Config, s: State, s': State)
    requires Sound(TableOf(s)) && CommitStep(c, s) == Some(s')
    ensures Sound(TableOf(s'))
  {
    var ch := CommitChange(c, s, s');
    SoundAfter(TableOf(s), ch, TableOf(s'));
  }

  lemma SoundAfterLoop(c: Config, s: State, a: RunnerAction, s': State)
    requires Sound(TableOf(s)) && RunnerStep(c, s, a) == Some(s') && !s'.runner.Dead?
    ensures Sound(TableOf(s'))
  {
    var ch := RunnerChange(c, s, a, s');
    SoundAfter(TableOf(s), ch, TableOf(s'));
  }

  lemma StaysDead(c: Config, s: State, a: Action, s': State)
    requires Next(c, s, a) == Some(s') && s.runner.Dead?
    ensures s'.runner.Dead?
  {
    match a
    case CommitThread => CommitFrame(c, s, s');
    case RunnerLoop(r) =>
    case _ => OtherFrame(c, s, a, s');
  }

  /** Until the loop exits, the active set contains every id in the queue and in the table, and those
  ids are pairwise distinct. */
  lemma {:induction false} ActiveIdsAreSound(c: Config, acts: seq<Action>, s: State)
    requires Run(c, acts) == Some(s)
    ensures s.runner.Dead? || Sound(TableOf(s))
  {
    if acts == [] {
    } else {
      var before := Run(c, acts[..|acts| - 1]).value;
      ActiveIdsAreSound(c, acts[..|acts| - 1], before);
      if s.runner.Dead? {
      } else if before.runner.Dead? {
        StaysDead(c, before, acts[|acts| - 1], s);
      } else {
        match acts[|acts| - 1]
        case CommitThread => SoundAfterCommit(c, before, s);
        case RunnerLoop(r) => SoundAfterLoop(c, before, r, s);
        case a => OtherChange(c, before, a, s);
      }
    }
  }

  /** So the duplicate check while draining never fires. */
  lemma NoDuplicateWhileDraining(c: Config, acts: seq<Action>, s: State)
    requires Run(c, acts) == Some(s)
    ensures s.runner.DrainGet? && s.inputQueue != [] ==> s.inputQueue[0] !in EntryIds(s.running)
  {
    ActiveIdsAreSound(c, acts, s);
    if s.runner.DrainGet? && s.inputQueue != [] {
      var x := s.inputQueue[0];
      assert TableOf(s).ids[x] <= 1 && multiset(s.inputQueue)[x] >= 1;
    }
  }
}
