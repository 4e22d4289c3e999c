/** What the counters mean, and the limits that hold whatever the interleaving. */
module PipelineCapacity {
  import opened Wrappers
  import opened Staleness
  import opened Tasks
  import opened Pipeline
  import opened PipelineFrames
  import PipelineRunner

  /** Rows of the running table with status `st`. */
  function CountRows(es: seq<Entry>, st: Status): nat {
    if es == [] then 0
    else CountRows(es[..|es| - 1], st) + (if es[|es| - 1].status == st then 1 else 0)
  }

  lemma {:induction false} CountRowsAppend(a: seq<Entry>, b: seq<Entry>, st: Status)
    ensures CountRows(a + b, st) == CountRows(a, st) + CountRows(b, st)
  {
    if b == [] {
      assert a + b == a;
    } else {
      CountRowsAppend(a, b[..|b| - 1], st);
      assert (a + b)[..|a + b| - 1] == a + b[..|b| - 1];
    }
  }

  lemma CountRowsSplit(es: seq<Entry>, i: nat, e: Entry, st: Status)
    requires i < |es|
    ensures CountRows(es, st) == CountRows(RemoveAt(es, i), st) + CountRows([es[i]], st)
    ensures CountRows(es[i := e], st) == CountRows(RemoveAt(es, i), st) + CountRows([e], st)
  {
    assert es == es[..i] + [es[i]] + es[i + 1..];
    assert es[i := e] == es[..i] + [e] + es[i + 1..];
    CountRowsAppend(es[..i], es[i + 1..], st);
    CountRowsAppend(es[..i] + [es[i]], es[i + 1..], st);
    CountRowsAppend(es[..i], [es[i]], st);
    CountRowsAppend(es[..i] + [e], es[i + 1..], st);
    CountRowsAppend(es[..i], [e], st);
  }

  /** Workflows that entered the runner and have not reported a verdict. */
  function InFlight(s: State): nat { |s.inputQueue| + CountRows(s.running, Working) }

  function Uncounted(s: State): nat { if s.commit.Uncounted() then 1 else 0 }

  /** A commit for which capacity has been seen, up to the moment when it is counted. */
  predicate Granted(pc: CommitPc) {
    pc.TakeInput? || pc.Hand? || pc.Registered? || pc.Refused? || pc.Uncounted()
  }

  function GrantedSlots(s: State): nat { if Granted(s.commit) then 1 else 0 }

  /** A task popped from the inputs and not yet counted by `on_rollout_submitted`. */
  function Popped(s: State): nat { if |s.commit.Held()| == 1 || s.commit.Uncounted() then 1 else 0 }

  ghost predicate Counters(c: Config, s: State) {
    && s.stat.running + Uncounted(s) == InFlight(s)
    && s.stat.running + s.stat.accepted + s.stat.rejected + Uncounted(s) == c.recovered + |s.h.commits|
    && s.stat.enqueued == |s.pending| + Popped(s)
  }

  ghost predicate Limited(c: Config, s: State) {
    && s.stat.running + GrantedSlots(s) <= c.limits.Concurrency()
    && s.stat.accepted + s.stat.running <= c.limits.MaxSamples(s.version)
    && (Granted(s.commit) ==>
        && s.commit.version <= s.version
        && s.stat.accepted + s.stat.running + 1 <= c.limits.MaxSamples(s.commit.version))
  }

  /** Recovery must not have granted more samples than the version allows. */
  predicate ValidConfig(c: Config) { c.recovered <= c.limits.MaxSamples(c.version) }

  // ---------------------------------------------------------------- the counters

  lemma CountersCommit(c: Config, s: State, s': State)
    requires Counters(c, s) && CommitStep(c, s) == Some(s')
    ensures Counters(c, s')
  {
    CommitFrame(c, s, s');
    if s.commit.TakeInput? || s.commit.PutBack? {
      assert s'.inputQueue == s.inputQueue && s'.stat == s.stat && |s'.h.commits| == |s.h.commits|;
    } else if s.commit.Registered? {
      assert s'.pending == s.pending && s'.stat == s.stat;
    } else if s.commit.Counting? {
      assert s'.inputQueue == s.inputQueue && s'.pending == s.pending && |s'.h.commits| == |s.h.commits|;
    } else {
      CommitKeepsCounters(c, s, s');
    }
  }

  lemma CommitKeepsCounters(c: Config, s: State, s': State)
    requires CommitStep(c, s) == Some(s')
    requires !s.commit.TakeInput? && !s.commit.PutBack? && !s.commit.Registered? && !s.commit.Counting?
    ensures s'.inputQueue == s.inputQueue && s'.stat == s.stat && s'.pending == s.pending
    ensures s'.h.commits == s.h.commits
    ensures Uncounted(s') == Uncounted(s) && Popped(s') == Popped(s)
  {
  }

  lemma CountersRunner(c: Config, s: State, a: RunnerAction, s': State)
    requires Counters(c, s) && RunnerStep(c, s, a) == Some(s')
    requires s.runner.DrainGet? && s.inputQueue != [] ==> s.inputQueue[0] !in EntryIds(s.running)
    ensures Counters(c, s')
  {
    RunnerFrame(c, s, a, s');
    if a.Pick? {
      PickKeepsInFlight(c, s, a, s');
    } else if a.Finish? {
      FinishLowersInFlight(c, s, a, s');
    } else if a.Proceed? && s.runner.DrainGet? && s.inputQueue != [] {
      var e := Entry(s.inputQueue[0], a.now, Working);
      assert s'.inputQueue == s.inputQueue[1..] && s'.running == s.running + [e] && s'.stat == s.stat;
      CountRowsAppend(s.running, [e], Working);
    } else {
      RunnerKeepsCounters(c, s, a, s');
    }
  }

  lemma PickKeepsInFlight(c: Config, s: State, a: RunnerAction, s': State)
    requires RunnerStep(c, s, a) == Some(s') && a.Pick?
    ensures InFlight(s') == InFlight(s) && s'.stat == s.stat
  {
    assert s'.inputQueue == s.inputQueue && s'.stat == s.stat;
    CountRowsSplit(s.running, a.i, s.running[a.i], Working);
    CountRowsAppend(RemoveAt(s.running, a.i), [s.running[a.i]], Working);
  }

  lemma FinishLowersInFlight(c: Config, s: State, a: RunnerAction, s': State)
    requires RunnerStep(c, s, a) == Some(s') && a.Finish?
    ensures InFlight(s') == InFlight(s) - 1
    ensures s'.stat == if a.accepted then s.stat.OnAccepted() else s.stat.OnRejected()
  {
    var e := s.running[a.i].(status := Done(a.accepted));
    assert s'.inputQueue == s.inputQueue && s'.running == s.running[a.i := e];
    CountRowsSplit(s.running, a.i, e, Working);
  }

  lemma RunnerKeepsCounters(c: Config, s: State, a: RunnerAction, s': State)
    requires RunnerStep(c, s, a) == Some(s')
    requires a.Callback? || (a.Proceed? && !(s.runner.DrainGet? && s.inputQueue != []))
    ensures s'.inputQueue == s.inputQueue && s'.running == s.running && s'.stat == s.stat
  {
  }

  lemma CountersOther(c: Config, s: State, a: Action, s': State)
    requires Counters(c, s) && Next(c, s, a) == Some(s') && !a.CommitThread? && !a.RunnerLoop?
    ensures Counters(c, s')
  {
    OtherFrame(c, s, a, s');
    OtherCounts(c, s, a, s');
  }

  function Enqueues(a: Action): nat { if a.Client? && a.a.Submit? then 1 else 0 }

  lemma OtherCounts(c: Config, s: State, a: Action, s': State)
    requires Next(c, s, a) == Some(s') && !a.CommitThread? && !a.RunnerLoop?
    ensures s'.stat == s.stat.(enqueued := s.stat.enqueued + Enqueues(a))
    ensures |s'.pending| == |s.pending| + Enqueues(a)
  {
  }

  // ---------------------------------------------------------------- the limits

  lemma LimitedCommit(c: Config, s: State, s': State)
    requires Limited(c, s) && CommitStep(c, s) == Some(s')
    ensures Limited(c, s')
  {
    CommitFrame(c, s, s');
    if s.commit.ReadCapacity? {
      assert s'.stat == s.stat;
    } else if s.commit.Counting? {
      MaxSamplesMonotone(c.limits, s.commit.version, s.version);
    } else {
      CommitKeepsGrants(c, s, s');
    }
  }

  lemma CommitKeepsGrants(c: Config, s: State, s': State)
    requires CommitStep(c, s) == Some(s') && !s.commit.ReadCapacity? && !s.commit.Counting?
    ensures s'.stat == s.stat
    ensures Granted(s'.commit) ==> Granted(s.commit) && s'.commit.version == s.commit.version
  {
  }

  lemma LimitedOther(c: Config, s: State, a: Action, s': State)
    requires Limited(c, s) && Next(c, s, a) == Some(s') && !a.CommitThread? && !a.RunnerLoop?
    ensures Limited(c, s')
  {
    OtherFrame(c, s, a, s');
    OtherCounts(c, s, a, s');
    OtherVersion(c, s, a, s');
    MaxSamplesMonotone(c.limits, s.version, s'.version);
  }

  lemma OtherVersion(c: Config, s: State, a: Action, s': State)
    requires Next(c, s, a) == Some(s') && !a.CommitThread? && !a.RunnerLoop?
    ensures s.version <= s'.version
  {
  }

  lemma LimitedRunner(c: Config, s: State, a: RunnerAction, s': State)
    requires Limited(c, s) && RunnerStep(c, s, a) == Some(s')
    ensures Limited(c, s')
  {
    RunnerFrame(c, s, a, s');
    RunnerReports(c, s, a, s');
  }

  lemma RunnerReports(c: Config, s: State, a: RunnerAction, s': State)
    requires RunnerStep(c, s, a) == Some(s')
    ensures s'.stat == s.stat || s'.stat == s.stat.OnAccepted() || s'.stat == s.stat.OnRejected()
  {
  }

  // ---------------------------------------------------------------- over whole runs

  lemma {:induction false} CountersHold(c: Config, acts: seq<Action>, s: State)
    requires Run(c, acts) == Some(s)
    ensures Counters(c, s)
  {
    if acts == [] {
    } else {
      var init := acts[..|acts| - 1];
      var before := Run(c, init).value;
      CountersHold(c, init, before);
      match acts[|acts| - 1]
      case CommitThread => CountersCommit(c, before, s);
      case RunnerLoop(r) =>
        PipelineRunner.NoDuplicateWhileDraining(c, init, before);
        CountersRunner(c, before, r, s);
      case a => CountersOther(c, before, a, s);
    }
  }

  lemma {:induction false} LimitsHold(c: Config, acts: seq<Action>, s: State)
    requires ValidConfig(c) && Run(c, acts) == Some(s)
    ensures Limited(c, s)
  {
    if acts == [] {
    } else {
      var before := Run(c, acts[..|acts| - 1]).value;
      LimitsHold(c, acts[..|acts| - 1], before);
      match acts[|acts| - 1]
      case CommitThread => LimitedCommit(c, before, s);
      case RunnerLoop(r) => LimitedRunner(c, before, r, s);
      case a => LimitedOther(c, before, a, s);
    }
  }

  /** The capacity invariant, over all interleavings: committed minus rejected tasks stay within the
  staleness limit, workflows in flight within the concurrency limit, `running` may read -1 but never
  exceeds the limit, and `enqueued` is the pending inputs plus the task the commit thread holds. */
  lemma CapacityInvariant(c: Config, acts: seq<Action>, s: State)
    requires ValidConfig(c) && Run(c, acts) == Some(s)
    ensures c.recovered + |s.h.commits| - s.stat.rejected <= c.limits.MaxSamples(s.version)
    ensures InFlight(s) <= c.limits.Concurrency()
    ensures InFlight(s) - 1 <= s.stat.running <= InFlight(s)
    ensures -1 <= s.stat.running <= c.limits.Concurrency()
    ensures s.stat.running == -1 ==> s.commit.Uncounted()
    ensures s.stat.enqueued == |s.pending| + Popped(s)
  {
    CountersHold(c, acts, s);
    LimitsHold(c, acts, s);
    if s.commit.Uncounted() {
      MaxSamplesMonotone(c.limits, s.commit.version, s.version);
    }
  }
}
