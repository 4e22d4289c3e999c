/** The client's side of `BatchTaskDispatcher` (areal/infra/workflow_executor.py): submitting inputs,
waiting for results, and collecting a batch. The background threads appear as parameters that say
what they did between two lock sections of the client. */
module Dispatcher {
  import opened Arithmetic
  import opened Sequences
  import opened Staleness
  import opened Tasks

  // ---------------------------------------------------------------- one wait

  /** The stored results when `count` of them are there, after as many arrivals as that takes. */
  function Gathered(d: seq<TaskResult>, arrivals: seq<seq<TaskResult>>, count: int): (g: seq<TaskResult>)
    decreases |arrivals|
  {
    if |d| >= count || arrivals == [] then d else Gathered(DictPutAll(d, arrivals[0]), arrivals[1..], count)
  }

  /** The arrivals that this takes. */
  function Arrived(d: seq<TaskResult>, arrivals: seq<seq<TaskResult>>, count: int): seq<TaskResult>
    decreases |arrivals|
  {
    if |d| >= count || arrivals == [] then []
    else arrivals[0] + Arrived(DictPutAll(d, arrivals[0]), arrivals[1..], count)
  }

  /** `random.shuffle` with `n` positions to go: swap every position, from the last down, with an earlier or
  the same one. */
  function ShuffleFrom(s: seq<TaskResult>, draws: seq<nat>, n: nat): (out: seq<TaskResult>)
    requires n <= |s|
    ensures multiset(out) == multiset(s) && |out| == |s|
    decreases n
  {
    if n <= 1 then s
    else
      var i := n - 1;
      var j := Draw(draws, i);
      ShuffleFrom(s[i := s[j]][j := s[i]], draws, i)
  }

  function Draw(draws: seq<nat>, i: nat): (j: nat)
    ensures j <= i
  {
    if i < |draws| then draws[i] % (i + 1) else 0
  }

  function Shuffled(s: seq<TaskResult>, draws: seq<nat>): (out: seq<TaskResult>)
    ensures multiset(out) == multiset(s) && |out| == |s|
  {
    ShuffleFrom(s, draws, |s|)
  }

  /** What a wait returns, and what it leaves stored. */
  datatype Waited = Waited(returned: seq<TaskResult>, stored: seq<TaskResult>)

  function WaitOnce(d: seq<TaskResult>, count: int, arrivals: seq<seq<TaskResult>>, draws: seq<nat>): Waited {
    var g := Gathered(d, arrivals, count);
    if 0 < count <= |g| then
      var sorted := SortByTime(g);
      Waited(Shuffled(sorted[..count], draws), DictPutAll([], sorted[count..]))
    else Waited([], g)
  }

  /** With fresh ids, gathering appends the arrivals in order. */
  lemma {:induction false} GatheredAppends(d: seq<TaskResult>, arrivals: seq<seq<TaskResult>>, count: int)
    requires AtMostOnce(multiset(Ids(d)) + multiset(Ids(Arrived(d, arrivals, count))))
    ensures Gathered(d, arrivals, count) == d + Arrived(d, arrivals, count)
    decreases |arrivals|
  {
    if |d| >= count || arrivals == [] {
      assert d + [] == d;
    } else {
      var a := arrivals[0];
      var rest := Arrived(DictPutAll(d, a), arrivals[1..], count);
      SplitBag(d, a, rest);
      DictPutAllFresh(d, a);
      GatheredAppends(d + a, arrivals[1..], count);
      assert d + a + rest == d + (a + rest);
    }
  }

  lemma SplitBag(d: seq<TaskResult>, a: seq<TaskResult>, rest: seq<TaskResult>)
    requires AtMostOnce(multiset(Ids(d)) + multiset(Ids(a + rest)))
    ensures AtMostOnce(multiset(Ids(d)) + multiset(Ids(a))) && AtMostOnce(multiset(Ids(d + a)) + multiset(Ids(rest)))
  {
    assert Ids(a + rest) == Ids(a) + Ids(rest);
    assert Ids(d + a) == Ids(d) + Ids(a);
    assert multiset(Ids(d)) + multiset(Ids(a)) + multiset(Ids(rest)) == multiset(Ids(d)) + multiset(Ids(a + rest));
    SubBag(multiset(Ids(d)) + multiset(Ids(a)), multiset(Ids(rest)));
  }

  lemma SubBag(a: multiset<int>, b: multiset<int>)
    requires AtMostOnce(a + b)
    ensures AtMostOnce(a)
  {
    forall x ensures a[x] <= 1 {
      assert (a + b)[x] <= 1;
    }
  }

  lemma {:induction false} DictPutAllTwice(d: seq<TaskResult>, a: seq<TaskResult>, b: seq<TaskResult>)
    ensures DictPutAll(d, a + b) == DictPutAll(DictPutAll(d, a), b)
    decreases |a|
  {
    if a == [] {
      assert a + b == b;
    } else {
      assert (a + b)[1..] == a[1..] + b;
      DictPutAllTwice(DictPut(d, a[0]), a[1..], b);
    }
  }

  /** What is stored after `k` arrivals. */
  function StoredAfter(d: seq<TaskResult>, arrivals: seq<seq<TaskResult>>, k: nat): seq<TaskResult>
    requires k <= |arrivals|
  {
    DictPutAll(d, Flatten(arrivals[..k]))
  }

  /** A wait looks at the arrivals, in order, until `count` results are stored or the deadline passes; no earlier
  and no later. */
  lemma {:induction false} GathersUntilEnough(d: seq<TaskResult>, arrivals: seq<seq<TaskResult>>, count: int)
    returns (k: nat)
    ensures k <= |arrivals| && Gathered(d, arrivals, count) == StoredAfter(d, arrivals, k)
    ensures Arrived(d, arrivals, count) == Flatten(arrivals[..k])
    ensures k < |arrivals| ==> |StoredAfter(d, arrivals, k)| >= count
    ensures forall j :: 0 <= j < k ==> |StoredAfter(d, arrivals, j)| < count
    decreases |arrivals|
  {
    if |d| >= count || arrivals == [] {
      k := 0;
      assert Flatten(arrivals[..0]) == [];
    } else {
      var d' := DictPutAll(d, arrivals[0]);
      k := GathersUntilEnough(d', arrivals[1..], count);
      forall j: nat | j <= |arrivals[1..]|
        ensures StoredAfter(d', arrivals[1..], j) == StoredAfter(d, arrivals, j + 1)
        ensures Flatten(arrivals[..j + 1]) == arrivals[0] + Flatten(arrivals[1..][..j])
      {
        OneLater(d, arrivals, j);
      }
      assert StoredAfter(d, arrivals, 0) == d;
      assert forall j :: 0 < j < k + 1 ==> StoredAfter(d, arrivals, j) == StoredAfter(d', arrivals[1..], j - 1);
      k := k + 1;
    }
  }

  lemma OneLater(d: seq<TaskResult>, arrivals: seq<seq<TaskResult>>, j: nat)
    requires j + 1 <= |arrivals|
    ensures StoredAfter(DictPutAll(d, arrivals[0]), arrivals[1..], j) == StoredAfter(d, arrivals, j + 1)
    ensures Flatten(arrivals[..j + 1]) == arrivals[0] + Flatten(arrivals[1..][..j])
  {
    assert arrivals[..j + 1] == [arrivals[0]] + arrivals[1..][..j];
    DictPutAllTwice(d, arrivals[0], Flatten(arrivals[1..][..j]));
  }

  /** With fresh ids a wait succeeds exactly when what is stored and what arrives before the deadline are
  together enough. */
  lemma WaitSucceedsExactly(d: seq<TaskResult>, count: int, arrivals: seq<seq<TaskResult>>, draws: seq<nat>)
    requires AtMostOnce(multiset(Ids(d)) + multiset(Ids(Flatten(arrivals)))) && count > 0
    ensures |WaitOnce(d, count, arrivals, draws).returned|
         == if |d| + |Flatten(arrivals)| >= count then count else 0
  {
    var k := GathersUntilEnough(d, arrivals, count);
    FreshUpTo(d, arrivals, k);
  }

  lemma FreshUpTo(d: seq<TaskResult>, arrivals: seq<seq<TaskResult>>, k: nat)
    requires k <= |arrivals| && AtMostOnce(multiset(Ids(d)) + multiset(Ids(Flatten(arrivals))))
    ensures |StoredAfter(d, arrivals, k)| == |d| + |Flatten(arrivals[..k])| <= |d| + |Flatten(arrivals)|
    ensures k == |arrivals| ==> Flatten(arrivals[..k]) == Flatten(arrivals)
  {
    var seen, rest := Flatten(arrivals[..k]), Flatten(arrivals[k..]);
    assert arrivals == arrivals[..k] + arrivals[k..];
    FlattenAppend(arrivals[..k], arrivals[k..]);
    SplitBag(d, seen, rest);
    DictPutAllFresh(d, seen);
    assert k == |arrivals| ==> arrivals[..k] == arrivals;
  }

  /** With fresh ids a wait loses nothing: what is returned and what is put back are together exactly
  what was stored before and what arrived. */
  lemma WaitingConserves(d: seq<TaskResult>, count: int, arrivals: seq<seq<TaskResult>>, draws: seq<nat>)
    requires AtMostOnce(multiset(Ids(d)) + multiset(Ids(Arrived(d, arrivals, count))))
    ensures var w := WaitOnce(d, count, arrivals, draws);
            multiset(w.returned) + multiset(w.stored) == multiset(d) + multiset(Arrived(d, arrivals, count))
  {
    var g, a := Gathered(d, arrivals, count), Arrived(d, arrivals, count);
    GatheredAppends(d, arrivals, count);
    if 0 < count <= |g| {
      assert Ids(d + a) == Ids(d) + Ids(a);
      IdsOfBag(SortByTime(g), g);
      DividedInTwo(SortByTime(g), count);
    }
  }

  lemma DividedInTwo(sorted: seq<TaskResult>, count: nat)
    requires count <= |sorted| && AtMostOnce(multiset(Ids(sorted)))
    ensures multiset(sorted[..count]) + multiset(DictPutAll([], sorted[count..])) == multiset(sorted)
  {
    TailDistinct(sorted, count);
    DictPutAllFresh([], sorted[count..]);
    assert [] + sorted[count..] == sorted[count..];
    assert sorted == sorted[..count] + sorted[count..];
  }

  lemma TailDistinct(rs: seq<TaskResult>, count: nat)
    requires count <= |rs| && AtMostOnce(multiset(Ids(rs)))
    ensures AtMostOnce(multiset(Ids([])) + multiset(Ids(rs[count..])))
  {
    assert Ids(rs) == Ids(rs[..count]) + Ids(rs[count..]);
    assert multiset(Ids(rs)) == multiset(Ids(rs[count..])) + multiset(Ids(rs[..count]));
    SubBag(multiset(Ids(rs[count..])), multiset(Ids(rs[..count])));
    assert multiset(Ids([])) + multiset(Ids(rs[count..])) == multiset(Ids(rs[count..]));
  }

  /** A wait returns as many results as it was asked for, or none; and nothing that stays stored is older than
  anything returned. */
  lemma WaitTakesOldest(d: seq<TaskResult>, count: int, arrivals: seq<seq<TaskResult>>, draws: seq<nat>)
    ensures var w := WaitOnce(d, count, arrivals, draws);
            && (if 0 < count <= |Gathered(d, arrivals, count)| then |w.returned| == count else w.returned == [])
            && forall x, y :: x in w.returned && y in w.stored ==> x.createTime <= y.createTime
  {
    var g, w := Gathered(d, arrivals, count), WaitOnce(d, count, arrivals, draws);
    if 0 < count <= |g| {
      var sorted := SortByTime(g);
      SortingSorts(g);
      forall x, y | x in w.returned && y in w.stored ensures x.createTime <= y.createTime {
        assert x in multiset(w.returned) && x in sorted[..count];
        PutOnlyThese([], sorted[count..], y);
      }
    }
  }

  lemma {:induction false} PutOnlyThese(d: seq<TaskResult>, rs: seq<TaskResult>, y: TaskResult)
    requires y in DictPutAll(d, rs)
    ensures y in d || y in rs
    decreases |rs|
  {
    if rs == [] {
    } else {
      PutOnlyThese(DictPut(d, rs[0]), rs[1..], y);
      if y in DictPut(d, rs[0]) {
        PutOnlyThis(d, rs[0], y);
      }
    }
  }

  lemma {:induction false} PutOnlyThis(d: seq<TaskResult>, r: TaskResult, y: TaskResult)
    requires y in DictPut(d, r)
    ensures y in d || y == r
  {
    if d == [] || d[0].id == r.id {
    } else if y != d[0] {
      PutOnlyThis(d[1..], r, y);
    }
  }

  // ---------------------------------------------------------------- a batch

  /** What the background threads do during one pass: the commit thread takes `taken` inputs before
  the pass looks at them, the runner's queue then reads `inputQueueSize`, and results arrive while
  the client waits. `draws` are the random numbers of the shuffle. */
  datatype Pass = Pass(taken: nat, inputQueueSize: nat, arrivals: seq<seq<TaskResult>>, draws: seq<nat>)

  /** What is still missing from a batch after `removed`. */
  function Missing(removed: seq<TaskResult>, batchSize: int): int { batchSize - CountAccepted(removed) }

  ghost predicate WaitStep(before: Waited, pass: Pass, batchSize: int, after: Waited) {
    var w := WaitOnce(before.stored, Missing(before.returned, batchSize), pass.arrivals, pass.draws);
    after == Waited(before.returned + w.returned, w.stored)
  }

  ghost predicate WaitedAt(passes: seq<Pass>, batchSize: int, waits: seq<Waited>, i: nat)
    requires i < |passes| && i + 1 < |waits|
  {
    WaitStep(waits[i], passes[i], batchSize, waits[i + 1])
  }

  /** `waits` lists what has been returned and what is stored, before the first pass and after each pass so far. */
  ghost predicate WaitTrace(d: seq<TaskResult>, passes: seq<Pass>, batchSize: int, waits: seq<Waited>) {
    && 0 < |waits| <= |passes| + 1 && waits[0] == Waited([], d)
    && forall i :: 0 <= i < |waits| - 1 ==> WaitedAt(passes, batchSize, waits, i)
  }

  lemma WaitsGrow(d: seq<TaskResult>, passes: seq<Pass>, batchSize: int, waits: seq<Waited>, after: Waited)
    requires WaitTrace(d, passes, batchSize, waits) && |waits| <= |passes|
    requires WaitStep(waits[|waits| - 1], passes[|waits| - 1], batchSize, after)
    ensures WaitTrace(d, passes, batchSize, waits + [after])
  {
    var ws := waits + [after];
    forall i | 0 <= i < |ws| - 1 ensures WaitedAt(passes, batchSize, ws, i) {
      assert ws[i] == waits[i];
      if i < |waits| - 1 {
        assert ws[i + 1] == waits[i + 1];
        assert WaitedAt(passes, batchSize, waits, i);
      } else {
        assert ws[i + 1] == after;
      }
    }
  }

  /** What has arrived during the first `k` passes. */
  function ArrivedDuring(passes: seq<Pass>, batchSize: int, waits: seq<Waited>, k: nat): seq<TaskResult>
    requires k < |waits| <= |passes| + 1
  {
    if k == 0 then []
    else
      var before := waits[k - 1];
      ArrivedDuring(passes, batchSize, waits, k - 1)
      + Arrived(before.stored, passes[k - 1].arrivals, Missing(before.returned, batchSize))
  }

  /** Collecting a batch loses nothing: with fresh ids the results returned by its waits and those still
  stored are exactly those stored before and those that have arrived. */
  lemma {:induction false} CollectingConserves(d: seq<TaskResult>, passes: seq<Pass>, batchSize: int,
                                               waits: seq<Waited>, k: nat)
    requires WaitTrace(d, passes, batchSize, waits) && k < |waits|
    requires AtMostOnce(multiset(Ids(d)) + multiset(Ids(ArrivedDuring(passes, batchSize, waits, k))))
    ensures Conserves(d, ArrivedDuring(passes, batchSize, waits, k), waits[k])
  {
    if k == 0 {
      assert Conserves(d, [], waits[0]);
    } else {
      var early, before := ArrivedDuring(passes, batchSize, waits, k - 1), waits[k - 1];
      var late := Arrived(before.stored, passes[k - 1].arrivals, Missing(before.returned, batchSize));
      EarlyIsFresh(d, early, late);
      CollectingConserves(d, passes, batchSize, waits, k - 1);
      assert WaitedAt(passes, batchSize, waits, k - 1);
      LastWaitConserves(d, early, before, passes[k - 1], batchSize, waits[k]);
    }
  }

  /** What was returned and what is stored are exactly what was stored first and what arrived. */
  ghost predicate Conserves(d: seq<TaskResult>, arrived: seq<TaskResult>, w: Waited) {
    multiset(w.returned) + multiset(w.stored) == multiset(d) + multiset(arrived)
  }

  lemma EarlyIsFresh(d: seq<TaskResult>, early: seq<TaskResult>, late: seq<TaskResult>)
    requires AtMostOnce(multiset(Ids(d)) + multiset(Ids(early + late)))
    ensures AtMostOnce(multiset(Ids(d)) + multiset(Ids(early)))
  {
    SplitBag(d, early, late);
  }

  lemma LastWaitConserves(d: seq<TaskResult>, early: seq<TaskResult>, before: Waited, pass: Pass, batchSize: int,
                          after: Waited)
    requires Conserves(d, early, before) && WaitStep(before, pass, batchSize, after)
    requires var late := Arrived(before.stored, pass.arrivals, Missing(before.returned, batchSize));
             AtMostOnce(multiset(Ids(d)) + multiset(Ids(early + late)))
    ensures var late := Arrived(before.stored, pass.arrivals, Missing(before.returned, batchSize));
            Conserves(d, early + late, after)
  {
    var count := Missing(before.returned, batchSize);
    var w, late :=
      WaitOnce(before.stored, count, pass.arrivals, pass.draws), Arrived(before.stored, pass.arrivals, count);
    SplitBag(d, early, late);
    StoredIsFresh(d, early, before.returned, before.stored, late);
    WaitingConserves(before.stored, count, pass.arrivals, pass.draws);
    assert multiset(after.returned) + multiset(after.stored)
        == multiset(before.returned) + (multiset(w.returned) + multiset(w.stored));
    assert multiset(d) + multiset(early + late) == multiset(d) + multiset(early) + multiset(late);
  }

  lemma StoredIsFresh(d: seq<TaskResult>, early: seq<TaskResult>, returned: seq<TaskResult>, stored: seq<TaskResult>,
                      late: seq<TaskResult>)
    requires AtMostOnce(multiset(Ids(d + early)) + multiset(Ids(late)))
    requires multiset(returned) + multiset(stored) == multiset(d) + multiset(early)
    ensures AtMostOnce(multiset(Ids(stored)) + multiset(Ids(late)))
  {
    assert multiset(returned + stored) == multiset(d + early);
    IdsOfBag(returned + stored, d + early);
    assert Ids(returned + stored) == Ids(returned) + Ids(stored);
    assert multiset(Ids(d + early)) + multiset(Ids(late))
        == multiset(Ids(stored)) + multiset(Ids(late)) + multiset(Ids(returned));
    SubBag(multiset(Ids(stored)) + multiset(Ids(late)), multiset(Ids(returned)));
  }

  /** Every wait of a batch takes its share, all that is missing or nothing, from the oldest results that have
  arrived by then. */
  lemma EveryShareIsOldest(d: seq<TaskResult>, passes: seq<Pass>, batchSize: int, waits: seq<Waited>, k: nat)
    requires WaitTrace(d, passes, batchSize, waits) && k < |waits| - 1
    ensures var share := |waits[k].returned|;
            && waits[k].returned <= waits[k + 1].returned
            && (|waits[k + 1].returned| - share in {0, Missing(waits[k].returned, batchSize)})
            && forall x, y :: x in waits[k + 1].returned[share..] && y in waits[k + 1].stored ==>
               x.createTime <= y.createTime
  {
    var before := waits[k];
    assert WaitedAt(passes, batchSize, waits, k);
    WaitTakesOldest(before.stored, Missing(before.returned, batchSize), passes[k].arrivals, passes[k].draws);
  }

  /** The filter keeps exactly the accepted results; what it leaves out was a rejection. */
  lemma AcceptedExactly(rs: seq<TaskResult>, r: TaskResult)
    ensures r in Accepted(rs) <==> r in rs && r.accepted
  {
    FilterKeepsExactly(IsAccepted, rs, r);
  }

  /** How many inputs one pass of `active_submit_and_wait` enqueues. */
  function PassSize(limit: int, pendingInputs: nat, maxQueueSize: int, inputQueueSize: nat, batchSize: int): nat {
    var capacity := Min(limit - pendingInputs, maxQueueSize - (inputQueueSize + batchSize));
    Max(0, Min(batchSize, capacity))
  }

  /** The pending inputs, and how many the generator has yielded. */
  datatype Feed = Feed(pending: seq<int>, next: nat)

  /** The inputs that the commit thread leaves in a pass. */
  function Left(pending: seq<int>, taken: nat): seq<int> { pending[Min(taken, |pending|)..] }

  /** What does not change while a batch is collected. */
  datatype Setting = Setting(pendingLimit: int, maxQueueSize: int, batchSize: int, generator: seq<int>)

  /** After a pass has enqueued its inputs, or all that the generator still has. */
  function FeedOnce(c: Setting, f: Feed, pass: Pass): (f': Feed)
    requires f.next <= |c.generator|
    ensures f'.next <= |c.generator|
  {
    var left := Left(f.pending, pass.taken);
    var size := PassSize(c.pendingLimit, |left|, c.maxQueueSize, pass.inputQueueSize, c.batchSize);
    var next := Min(f.next + size, |c.generator|);
    Feed(left + c.generator[f.next..next], next)
  }

  /** A pass may enqueue `n` inputs beside `pending` others: no more than a batch, within the pending limit, and
  with room in the runner's queue for a batch beside them. */
  predicate MayEnqueue(c: Setting, pending: nat, pass: Pass, n: nat) {
    && n <= c.batchSize
    && pending + n <= c.pendingLimit
    && pass.inputQueueSize + c.batchSize + n <= c.maxQueueSize
  }

  /** A pass enqueues inputs of the generator, in order: only as many as it may, and all of them unless the
  generator ends. */
  predicate PassIsMaximal(c: Setting, before: Feed, pass: Pass, after: Feed) {
    && before.next <= after.next <= |c.generator|
    && var left, n := Left(before.pending, pass.taken), after.next - before.next;
    && after.pending == left + c.generator[before.next..after.next]
    && (n > 0 ==> MayEnqueue(c, |left|, pass, n))
    && (after.next < |c.generator| ==> !MayEnqueue(c, |left|, pass, n + 1))
  }

  /** The pass may enqueue one more input than the generator has. */
  predicate GeneratorEnds(c: Setting, before: Feed, pass: Pass, after: Feed) {
    && before.next <= after.next == |c.generator|
    && MayEnqueue(c, |Left(before.pending, pass.taken)|, pass, after.next - before.next + 1)
  }

  predicate EndsAt(c: Setting, passes: seq<Pass>, feeds: seq<Feed>, i: nat)
    requires i < |passes| && i + 1 < |feeds|
  {
    GeneratorEnds(c, feeds[i], passes[i], feeds[i + 1])
  }

  /** The generator did not end in the first `n` passes. */
  predicate GoesOn(c: Setting, passes: seq<Pass>, feeds: seq<Feed>, n: nat)
    requires n <= |passes| && n < |feeds|
  {
    forall i :: 0 <= i < n ==> !EndsAt(c, passes, feeds, i)
  }

  lemma WentOn(c: Setting, passes: seq<Pass>, feeds: seq<Feed>, n: nat, feeds': seq<Feed>)
    requires n <= |passes| && n < |feeds| && feeds <= feeds' && GoesOn(c, passes, feeds, n)
    ensures GoesOn(c, passes, feeds', n)
  {
    forall i | 0 <= i < n ensures !EndsAt(c, passes, feeds', i) {
      assert !EndsAt(c, passes, feeds, i);
    }
  }

  /** Every pass enqueues as many inputs as the limits allow, and there is only one such number. */
  lemma PassesAreMaximal(c: Setting, before: Feed, pass: Pass, after: Feed)
    ensures FeedStep(c, before, pass, after) <==> PassIsMaximal(c, before, pass, after)
  {
  }

  /** The generator ends within a pass exactly when the pass may enqueue one more input than there is. */
  lemma PassSubmits(c: Setting, before: Feed, pass: Pass, after: Feed, exhausted: bool)
    requires before.next <= |c.generator|
    requires var left := Left(before.pending, pass.taken);
             var size := PassSize(c.pendingLimit, |left|, c.maxQueueSize, pass.inputQueueSize, c.batchSize);
             && after == Feed(left + c.generator[before.next..Min(before.next + size, |c.generator|)],
                              Min(before.next + size, |c.generator|))
             && (exhausted <==> before.next + size > |c.generator|)
    ensures FeedStep(c, before, pass, after) && PassIsMaximal(c, before, pass, after)
    ensures exhausted <==> GeneratorEnds(c, before, pass, after)
  {
  }

  predicate MaximalAt(c: Setting, passes: seq<Pass>, feeds: seq<Feed>, i: nat)
    requires i < |passes| && i + 1 < |feeds|
  {
    PassIsMaximal(c, feeds[i], passes[i], feeds[i + 1])
  }

  predicate EveryPassMaximal(c: Setting, passes: seq<Pass>, feeds: seq<Feed>) {
    |feeds| <= |passes| + 1 && forall i :: 0 <= i < |feeds| - 1 ==> MaximalAt(c, passes, feeds, i)
  }

  lemma TraceIsMaximal(c: Setting, pending: seq<int>, passes: seq<Pass>, feeds: seq<Feed>)
    requires FeedTrace(c, pending, passes, feeds)
    ensures EveryPassMaximal(c, passes, feeds)
  {
    forall i | 0 <= i < |feeds| - 1 ensures MaximalAt(c, passes, feeds, i) {
      assert FedAt(c, passes, feeds, i);
      PassesAreMaximal(c, feeds[i], passes[i], feeds[i + 1]);
    }
  }

  /** So does every pass of a batch. With the limit of the manager, it never leaves more inputs pending than
  `max_staleness + 1` consumer batches. */
  lemma EveryPassIsMaximal(c: Setting, l: Limits, pending: seq<int>, passes: seq<Pass>, feeds: seq<Feed>, i: nat)
    requires FeedTrace(c, pending, passes, feeds) && i < |feeds| - 1 && c.pendingLimit == l.PendingLimit()
    ensures MaximalAt(c, passes, feeds, i)
    ensures feeds[i].next < feeds[i + 1].next ==>
            |feeds[i + 1].pending| <= (l.maxStaleness + 1) * l.consumerBatch
  {
    TraceIsMaximal(c, pending, passes, feeds);
    assert MaximalAt(c, passes, feeds, i);
  }

  ghost predicate FeedStep(c: Setting, before: Feed, pass: Pass, after: Feed) {
    before.next <= |c.generator| && after == FeedOnce(c, before, pass)
  }

  ghost predicate FedAt(c: Setting, passes: seq<Pass>, feeds: seq<Feed>, i: nat)
    requires i < |passes| && i + 1 < |feeds|
  {
    FeedStep(c, feeds[i], passes[i], feeds[i + 1])
  }

  /** `feeds` lists the pending inputs before the first pass and after each pass so far. */
  ghost predicate FeedTrace(c: Setting, pending: seq<int>, passes: seq<Pass>, feeds: seq<Feed>) {
    && 0 < |feeds| <= |passes| + 1 && feeds[0] == Feed(pending, 0)
    && forall i :: 0 <= i < |feeds| - 1 ==> FedAt(c, passes, feeds, i)
  }

  lemma FeedsGrow(c: Setting, pending: seq<int>, passes: seq<Pass>, feeds: seq<Feed>, after: Feed)
    requires FeedTrace(c, pending, passes, feeds) && |feeds| <= |passes|
    requires FeedStep(c, feeds[|feeds| - 1], passes[|feeds| - 1], after)
    ensures FeedTrace(c, pending, passes, feeds + [after])
  {
    var fs := feeds + [after];
    forall i | 0 <= i < |fs| - 1 ensures FedAt(c, passes, fs, i) {
      if i < |feeds| - 1 {
        assert FedAt(c, passes, feeds, i);
      }
    }
  }

  /** A batch is complete with `batchSize` accepted results, or, when its size is dynamic, with `batchSize`
  results of any kind. */
  predicate Complete(removed: seq<TaskResult>, batchSize: int, dynamicBs: bool) {
    if dynamicBs then |removed| >= batchSize else CountAccepted(removed) >= batchSize
  }

  datatype WaitOutcome = Ready(results: seq<TaskResult>) | TooFew | BadCount

  datatype BatchOutcome =
    | Batch(results: seq<TaskResult>)
    | StillWaiting                          // the schedule of passes ended before the batch was complete
    | QueueTooSmall | InvalidCount | GeneratorExhausted

  datatype Status = Full | Incomplete | Failed(why: BatchOutcome)

  // ---------------------------------------------------------------- the class

  method Shuffle(s: seq<TaskResult>, draws: seq<nat>) returns (out: seq<TaskResult>)
    ensures out == Shuffled(s, draws)
  {
    out := s;
    var i := |s| - 1;
    while i > 0
      invariant |out| == |s| && -1 <= i < |s|
      invariant ShuffleFrom(out, draws, i + 1) == Shuffled(s, draws)
    {
      var j := Draw(draws, i);
      out := out[i := out[j]][j := out[i]];
      i := i - 1;
    }
  }

  class BatchTaskDispatcher {
    const maxQueueSize: int
    const manager: StalenessManager
    var pendingInputs: seq<int>
    var pendingResults: seq<TaskResult>     // a dictionary in insertion order
    var activeTaskIds: set<int>

    constructor (maxQueueSize: int, manager: StalenessManager)
      ensures this.maxQueueSize == maxQueueSize && this.manager == manager
      ensures pendingInputs == [] && pendingResults == [] && activeTaskIds == {}
    {
      this.maxQueueSize := maxQueueSize;
      this.manager := manager;
      pendingInputs, pendingResults, activeTaskIds := [], [], {};
    }

    method SubmitTaskInput(id: int)
      modifies this, manager
      ensures pendingInputs == old(pendingInputs) + [id]
      ensures activeTaskIds == old(activeTaskIds) + {id}
      ensures manager.stat == old(manager.stat).OnEnqueued()
      ensures pendingResults == old(pendingResults)
    {
      pendingInputs := pendingInputs + [id];
      manager.OnRolloutEnqueued();
      activeTaskIds := activeTaskIds + {id};
    }

    /** Without a positive count nothing happens; a timeout leaves every arrival stored. */
    method WaitResults(count: int, arrivals: seq<seq<TaskResult>>, draws: seq<nat>) returns (r: WaitOutcome)
      modifies this
      ensures pendingInputs == old(pendingInputs)
      ensures r.BadCount? <==> count <= 0
      ensures r.Ready? <==> 0 < count <= |Gathered(old(pendingResults), arrivals, count)|
      ensures var w := WaitOnce(old(pendingResults), count, arrivals, draws);
              && pendingResults == w.stored
              && (if r.Ready? then r.results else []) == w.returned
              && activeTaskIds == old(activeTaskIds) - (set t | t in Ids(w.returned))
    {
      if count <= 0 {
        return BadCount;
      }
      var i := 0;
      while |pendingResults| < count
        invariant i <= |arrivals|
        invariant Gathered(pendingResults, arrivals[i..], count) == Gathered(old(pendingResults), arrivals, count)
        invariant pendingInputs == old(pendingInputs) && activeTaskIds == old(activeTaskIds)
        decreases |arrivals| - i
      {
        if i == |arrivals| {
          return TooFew;
        }
        pendingResults := DictPutAll(pendingResults, arrivals[i]);
        assert arrivals[i..][1..] == arrivals[i + 1..];
        i := i + 1;
      }
      var drained := SortByTime(pendingResults);
      pendingResults := [];
      var selected, rest := drained[..count], drained[count..];
      pendingResults := DictPutAll(pendingResults, rest);
      var shuffled := Shuffle(selected, draws);
      SameIds(selected, shuffled);
      activeTaskIds := activeTaskIds - (set t | t in Ids(selected));
      r := Ready(shuffled);
    }

    /** Submit `n` inputs of the generator, from position `next`. */
    method SubmitMany(generator: seq<int>, next: nat, n: nat) returns (next': nat, exhausted: bool)
      requires next <= |generator|
      modifies this, manager
      ensures exhausted <==> next + n > |generator|
      ensures next' == Min(next + n, |generator|)
      ensures pendingInputs == old(pendingInputs) + generator[next..next']
      ensures pendingResults == old(pendingResults)
      ensures manager.stat == old(manager.stat).(enqueued := old(manager.stat.enqueued) + next' - next)
    {
      next', exhausted := next, false;
      while next' < next + n
        invariant next <= next' <= next + n && next' <= |generator| && !exhausted
        invariant pendingInputs == old(pendingInputs) + generator[next..next']
        invariant pendingResults == old(pendingResults)
        invariant manager.stat == old(manager.stat).(enqueued := old(manager.stat.enqueued) + next' - next)
      {
        if next' == |generator| {
          exhausted := true;
          return;
        }
        SubmitTaskInput(generator[next']);
        next' := next' + 1;
      }
    }

    /** What does not change while a batch of this size is collected from this generator. */
    function Sizes(batchSize: int, generator: seq<int>): Setting {
      Setting(manager.limits.PendingLimit(), maxQueueSize, batchSize, generator)
    }

    /** The submissions of one pass under a pending limit, after the commit thread has taken `pass.taken` inputs:
    as many as the limits allow. The generator ends exactly when they allow one more than it has. */
    method SubmitWithin(limit: int, generator: seq<int>, next: nat, batchSize: int, pass: Pass)
      returns (next': nat, exhausted: bool)
      requires next <= |generator|
      modifies this, manager
      ensures var c := Setting(limit, maxQueueSize, batchSize, generator);
              && PassIsMaximal(c, Feed(old(pendingInputs), next), pass, Feed(pendingInputs, next'))
              && FeedStep(c, Feed(old(pendingInputs), next), pass, Feed(pendingInputs, next'))
              && (exhausted <==> GeneratorEnds(c, Feed(old(pendingInputs), next), pass, Feed(pendingInputs, next')))
      ensures pendingResults == old(pendingResults)
      ensures manager.stat == old(manager.stat).(enqueued := old(manager.stat.enqueued) + next' - next)
    {
      pendingInputs := Left(pendingInputs, pass.taken);
      var capStaleness := limit - |pendingInputs|;
      var capQueue := maxQueueSize - (pass.inputQueueSize + batchSize);
      var capacity := Min(capStaleness, capQueue);
      next', exhausted := next, false;
      if capacity > 0 {
        next', exhausted := SubmitMany(generator, next, Max(0, Min(batchSize, capacity)));
      }
      PassSubmits(Setting(limit, maxQueueSize, batchSize, generator), Feed(old(pendingInputs), next), pass,
                  Feed(pendingInputs, next'), exhausted);
    }

    /** The same under the pending limit of the manager. */
    method SubmitPass(generator: seq<int>, next: nat, batchSize: int, pass: Pass) returns (next': nat, exhausted: bool)
      requires next <= |generator|
      modifies this, manager
      ensures var c := Sizes(batchSize, generator);
              && PassIsMaximal(c, Feed(old(pendingInputs), next), pass, Feed(pendingInputs, next'))
              && FeedStep(c, Feed(old(pendingInputs), next), pass, Feed(pendingInputs, next'))
              && (exhausted <==> GeneratorEnds(c, Feed(old(pendingInputs), next), pass, Feed(pendingInputs, next')))
      ensures pendingResults == old(pendingResults)
      ensures manager.stat == old(manager.stat).(enqueued := old(manager.stat.enqueued) + next' - next)
    {
      var limit := manager.GetPendingLimit();
      next', exhausted := SubmitWithin(limit, generator, next, batchSize, pass);
    }

    /** The `for res in arrived` loop: append accepted results until the batch is full. A wait never
    returns more than the batch still needs, so the loop looks at everything that arrived. */
    method Absorb(arrived: seq<TaskResult>, batchSize: int, dynamicBs: bool,
                  accepted0: nat, attempts0: nat, results0: seq<TaskResult>)
      returns (full: bool, looked: nat, acceptedCnt: nat, totalAttempts: nat, results: seq<TaskResult>)
      requires accepted0 < batchSize && |arrived| <= batchSize - accepted0
      requires dynamicBs ==> attempts0 == accepted0 == 0
      ensures looked == |arrived|
      ensures results == results0 + Accepted(arrived)
      ensures acceptedCnt == accepted0 + CountAccepted(arrived)
      ensures dynamicBs ==> (full <==> |arrived| == batchSize) && totalAttempts == |arrived|
      ensures !dynamicBs ==> (full <==> acceptedCnt == batchSize) && (!full ==> acceptedCnt < batchSize)
    {
      full, looked, acceptedCnt, totalAttempts, results := false, 0, accepted0, attempts0, results0;
      while looked < |arrived| && !full
        invariant looked <= |arrived| && acceptedCnt <= accepted0 + looked
        invariant results == results0 + Accepted(arrived[..looked])
        invariant acceptedCnt == accepted0 + CountAccepted(arrived[..looked])
        invariant dynamicBs ==> totalAttempts == looked && (full <==> looked == batchSize)
        invariant !dynamicBs ==> (full <==> acceptedCnt == batchSize)
        invariant !full ==> acceptedCnt < batchSize
      {
        var res := arrived[looked];
        OneMoreAccepted(arrived, looked);
        looked := looked + 1;
        if !res.accepted {
          if dynamicBs {
            totalAttempts := totalAttempts + 1;
            full := totalAttempts >= batchSize;
          }
        } else {
          acceptedCnt := acceptedCnt + 1;
          totalAttempts := totalAttempts + 1;
          results := results + [res];
          if dynamicBs {
            full := totalAttempts >= batchSize;
          } else {
            full := acceptedCnt >= batchSize;
          }
        }
      }
      assert arrived[..|arrived|] == arrived;
    }

    /** The wait of one pass, for what is still missing, and the loop over what it returns. */
    method WaitPass(batchSize: int, dynamicBs: bool, pass: Pass, acceptedCnt: nat, totalAttempts: nat,
                    results: seq<TaskResult>, ghost removed: seq<TaskResult>)
      returns (bad: bool, full: bool, arrived: seq<TaskResult>, acceptedCnt': nat, totalAttempts': nat,
               results': seq<TaskResult>)
      requires results == Accepted(removed) && acceptedCnt == |results|
      requires !Complete(removed, batchSize, dynamicBs) || batchSize <= 0
      requires dynamicBs ==> removed == [] && totalAttempts == 0
      modifies this
      ensures pendingInputs == old(pendingInputs)
      ensures bad <==> batchSize - acceptedCnt <= 0
      ensures Waited(arrived, pendingResults)
           == WaitOnce(old(pendingResults), Missing(removed, batchSize), pass.arrivals, pass.draws)
      ensures results' == Accepted(removed + arrived) && acceptedCnt' == |results'|
      ensures bad ==> arrived == []
      ensures !bad ==> (full <==> Complete(removed + arrived, batchSize, dynamicBs))
      ensures !bad && full && !dynamicBs ==> acceptedCnt' == batchSize
      ensures !bad && dynamicBs ==> if full then |arrived| == batchSize else arrived == [] && totalAttempts' == 0
    {
      ghost var d := pendingResults;
      bad, full, arrived, acceptedCnt', totalAttempts', results' :=
        false, false, [], acceptedCnt, totalAttempts, results;
      assert removed + [] == removed;
      var waited := WaitResults(batchSize - acceptedCnt, pass.arrivals, pass.draws);
      WaitTakesOldest(d, batchSize - acceptedCnt, pass.arrivals, pass.draws);
      if waited.BadCount? {
        bad := true;
        return;
      }
      if waited.Ready? { arrived := waited.results; }
      var looked;
      full, looked, acceptedCnt', totalAttempts', results' :=
        Absorb(arrived, batchSize, dynamicBs, acceptedCnt, totalAttempts, results);
      FilterAppend(IsAccepted, removed, arrived);
    }

    /** One pass: submissions, then the wait. It fails before it submits, while it submits, or before it waits.
    `d` and `inputs` are the results stored and the inputs pending at the start of the batch; `waits` and `feeds`
    record the passes so far. */
    method OnePass(generator: seq<int>, next: nat, batchSize: int, dynamicBs: bool, passes: seq<Pass>, acceptedCnt: nat,
                   totalAttempts: nat, results: seq<TaskResult>, removed: seq<TaskResult>,
                   rounds: nat, ghost d: seq<TaskResult>, ghost waits: seq<Waited>, ghost inputs: seq<int>,
                   ghost feeds: seq<Feed>)
      returns (status: Status, next': nat, removed': seq<TaskResult>, acceptedCnt': nat, totalAttempts': nat,
               results': seq<TaskResult>, ghost waits': seq<Waited>, ghost feeds': seq<Feed>)
      requires rounds < |passes| && next <= |generator|
      requires results == Accepted(removed) && acceptedCnt == |results|
      requires !Complete(removed, batchSize, dynamicBs) || removed == []
      requires dynamicBs ==> removed == [] && totalAttempts == 0
      requires WaitTrace(d, passes, batchSize, waits) && |waits| == rounds + 1
               && waits[rounds] == Waited(removed, pendingResults)
      requires FeedTrace(Sizes(batchSize, generator), inputs, passes, feeds)
      requires |feeds| == rounds + 1 && feeds[rounds] == Feed(pendingInputs, next)
      modifies this, manager
      ensures next' <= |generator| && |feeds'| == rounds + 2 && feeds'[rounds + 1] == Feed(pendingInputs, next')
      ensures FeedTrace(Sizes(batchSize, generator), inputs, passes, feeds')
      ensures manager.stat == old(manager.stat).(enqueued := old(manager.stat.enqueued) + next' - next)
      ensures status.Failed? ==> waits' == waits && removed' == removed && pendingResults == old(pendingResults)
      ensures status.Failed? ==>
        status.why ==
          if maxQueueSize < batchSize then QueueTooSmall
          else if batchSize <= 0 then InvalidCount
          else GeneratorExhausted
      ensures feeds <= feeds'
      ensures status.Failed? && status.why.GeneratorExhausted? <==>
              0 < batchSize <= maxQueueSize && EndsAt(Sizes(batchSize, generator), passes, feeds', rounds)
      ensures !status.Failed? ==>
              0 < batchSize <= maxQueueSize && results' == Accepted(removed') && acceptedCnt' == |results'|
      ensures !status.Failed? ==>
        WaitTrace(d, passes, batchSize, waits') && |waits'| == rounds + 2
          && waits'[rounds + 1] == Waited(removed', pendingResults)
      ensures status.Full? ==> Complete(removed', batchSize, dynamicBs)
      ensures status.Full? ==> if dynamicBs then |removed'| == batchSize else acceptedCnt' == batchSize
      ensures status.Incomplete? ==> !Complete(removed', batchSize, dynamicBs)
      ensures status.Incomplete? && dynamicBs ==> removed' == [] && totalAttempts' == 0
    {
      next', removed', acceptedCnt', totalAttempts', results', waits' :=
        next, removed, acceptedCnt, totalAttempts, results, waits;
      var pass := passes[rounds];
      ghost var c := Sizes(batchSize, generator);
      if maxQueueSize < batchSize {
        pendingInputs := Left(pendingInputs, pass.taken);
        NothingFits(c, feeds[rounds], pass);
        FeedsGrow(c, inputs, passes, feeds, Feed(pendingInputs, next));
        feeds' := feeds + [Feed(pendingInputs, next)];
        status := Failed(QueueTooSmall);
        return;
      }
      var exhausted;
      next', exhausted := SubmitPass(generator, next, batchSize, pass);
      FeedsGrow(c, inputs, passes, feeds, Feed(pendingInputs, next'));
      feeds' := feeds + [Feed(pendingInputs, next')];
      if exhausted {
        status := Failed(GeneratorExhausted);
        return;
      }
      var bad, full, arrived;
      bad, full, arrived, acceptedCnt', totalAttempts', results' :=
        WaitPass(batchSize, dynamicBs, pass, acceptedCnt, totalAttempts, results, removed);
      if bad {
        status := Failed(InvalidCount);
        return;
      }
      removed' := removed + arrived;
      WaitsGrow(d, passes, batchSize, waits, Waited(removed', pendingResults));
      waits' := waits + [Waited(removed', pendingResults)];
      status := if full then Full else Incomplete;
    }

    /** Collect a batch. `removed` are all results that its `rounds` waits have returned; `waits` says that
    they are what left the store, pass by pass, and `feeds` that the passes have enqueued what they should. A
    batch consists of the accepted ones among `removed`, in order, as soon as it is complete; a static one has
    exactly `batchSize`, a dynamic one uses up exactly `batchSize` results. */
    method ActiveSubmitAndWait(generator: seq<int>, batchSize: int, dynamicBs: bool, passes: seq<Pass>)
      returns (outcome: BatchOutcome, removed: seq<TaskResult>, rounds: nat, ghost waits: seq<Waited>,
               ghost feeds: seq<Feed>)
      modifies this, manager
      ensures rounds <= |passes| && |feeds| ==
              if outcome.Batch? || outcome.StillWaiting? then rounds + 1 else rounds + 2
      ensures WaitTrace(old(pendingResults), passes, batchSize, waits)
      ensures |waits| == rounds + 1 && waits[rounds] == Waited(removed, pendingResults)
      ensures FeedTrace(Sizes(batchSize, generator), old(pendingInputs), passes, feeds)
      ensures EveryPassMaximal(Sizes(batchSize, generator), passes, feeds)
      ensures var f := feeds[|feeds| - 1];
              && pendingInputs == f.pending
              && manager.stat == old(manager.stat).(enqueued := old(manager.stat.enqueued) + f.next)
      ensures outcome.Batch? ==> outcome.results == Accepted(removed) && Complete(removed, batchSize, dynamicBs)
      ensures outcome.Batch? ==> if dynamicBs then |removed| == batchSize else |outcome.results| == batchSize
      ensures outcome.StillWaiting? ==>
              rounds == |passes| && (passes != [] ==> !Complete(removed, batchSize, dynamicBs))
      ensures outcome.QueueTooSmall? <==> passes != [] && maxQueueSize < batchSize
      ensures outcome.InvalidCount? <==> passes != [] && batchSize <= maxQueueSize && batchSize <= 0
      ensures outcome.QueueTooSmall? || outcome.InvalidCount? ==> rounds == 0
      ensures outcome.GeneratorExhausted? ==>
              rounds < |passes| && EndsAt(Sizes(batchSize, generator), passes, feeds, rounds)
      ensures 0 < batchSize <= maxQueueSize ==>
              GoesOn(Sizes(batchSize, generator), passes, feeds, rounds)
    {
      var acceptedCnt, totalAttempts := 0, 0;
      var results: seq<TaskResult> := [];
      var next: nat := 0;
      removed, rounds, waits, feeds := [], 0, [Waited([], pendingResults)], [Feed(pendingInputs, 0)];
      ghost var d, inputs, stat := pendingResults, pendingInputs, manager.stat;
      while rounds < |passes|
        invariant rounds <= |passes| && next <= |generator|
        invariant WaitTrace(d, passes, batchSize, waits) && |waits| == rounds + 1
                  && waits[rounds] == Waited(removed, pendingResults)
        invariant FeedTrace(Sizes(batchSize, generator), inputs, passes, feeds)
        invariant |feeds| == rounds + 1 && feeds[rounds] == Feed(pendingInputs, next)
        invariant EveryPassMaximal(Sizes(batchSize, generator), passes, feeds)
        invariant GoesOn(Sizes(batchSize, generator), passes, feeds, rounds)
        invariant manager.stat == stat.(enqueued := stat.enqueued + next)
        invariant results == Accepted(removed) && acceptedCnt == |results|
        invariant rounds > 0 ==> 0 < batchSize <= maxQueueSize && !Complete(removed, batchSize, dynamicBs)
        invariant rounds == 0 ==> removed == []
        invariant dynamicBs ==> removed == [] && totalAttempts == 0
        decreases |passes| - rounds
      {
        var status;
        ghost var before := feeds;
        status, next, removed, acceptedCnt, totalAttempts, results, waits, feeds :=
          OnePass(generator, next, batchSize, dynamicBs, passes, acceptedCnt, totalAttempts, results, removed, rounds,
                  d, waits, inputs, feeds);
        WentOn(Sizes(batchSize, generator), passes, before, rounds, feeds);
        TraceIsMaximal(Sizes(batchSize, generator), inputs, passes, feeds);
        if status.Failed? {
          outcome := status.why;
          return;
        }
        rounds := rounds + 1;
        if status.Full? {
          outcome := Batch(results);
          return;
        }
      }
      outcome := StillWaiting;
    }
  }

  /** No input is enqueued into a queue that is too small. */
  lemma NothingFits(c: Setting, f: Feed, pass: Pass)
    requires f.next <= |c.generator| && c.maxQueueSize < c.batchSize
    ensures FeedStep(c, f, pass, Feed(Left(f.pending, pass.taken), f.next))
  {
    assert c.generator[f.next..f.next] == [];
  }

  lemma SameIds(a: seq<TaskResult>, b: seq<TaskResult>)
    requires multiset(a) == multiset(b)
    ensures (set t | t in Ids(a)) == (set t | t in Ids(b))
  {
    IdsOfBag(a, b);
    forall t ensures t in Ids(a) <==> t in Ids(b) {
      assert t in multiset(Ids(a)) <==> t in multiset(Ids(b));
    }
  }

  lemma OneMoreAccepted(rs: seq<TaskResult>, n: nat)
    requires n < |rs|
    ensures Accepted(rs[..n + 1]) == Accepted(rs[..n]) + (if rs[n].accepted then [rs[n]] else [])
  {
    assert rs[..n + 1][..n] == rs[..n];
  }
}
