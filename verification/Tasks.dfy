/** Tasks on their way through the rollout pipeline, and the list and dictionary operations that the
dispatcher and the runner perform on them. */
module Tasks {
  import opened Sequences

  datatype Status = Working | Done(accepted: bool)

  /** One row of the runner's `running_tasks` table. */
  datatype Entry = Entry(id: int, createTime: int, status: Status)

  /** A `TimedResult`; a rejected task carries `None` as its data. */
  datatype TaskResult = TaskResult(id: int, createTime: int, accepted: bool)

  /** A task put into the runner's input queue, with the model version at which the dispatcher
  found capacity for it. */
  datatype Commit = Commit(id: int, version: int)

  /** A result handed to the trainer, with the model version at that moment. */
  datatype Delivery = Delivery(result: TaskResult, version: int)

  function EntryIds(es: seq<Entry>): seq<int> { seq(|es|, i requires 0 <= i < |es| => es[i].id) }

  function Ids(rs: seq<TaskResult>): seq<int> { seq(|rs|, i requires 0 <= i < |rs| => rs[i].id) }

  function CommitIds(cs: seq<Commit>): seq<int> { seq(|cs|, i requires 0 <= i < |cs| => cs[i].id) }

  function Results(ds: seq<Delivery>): seq<TaskResult> {
    seq(|ds|, i requires 0 <= i < |ds| => ds[i].result)
  }

  function Stamp(rs: seq<TaskResult>, version: int): (ds: seq<Delivery>)
    ensures Results(ds) == rs
  {
    seq(|rs|, i requires 0 <= i < |rs| => Delivery(rs[i], version))
  }

  function RemoveAt<T>(s: seq<T>, i: nat): (r: seq<T>)
    requires i < |s|
    ensures multiset(r) + multiset{s[i]} == multiset(s)
  {
    assert s == s[..i] + [s[i]] + s[i + 1..];
    s[..i] + s[i + 1..]
  }

  lemma BagCancel<T>(x: multiset<T>, y: multiset<T>, e: T)
    requires x + multiset{e} == y + multiset{e}
    ensures x == y
  {
    assert x == (x + multiset{e}) - multiset{e};
  }

  // ---------------------------------------------------------------- `_pending_results`

  /** `d[r.task_id] = r` on a dictionary that keeps insertion order. */
  function DictPut(d: seq<TaskResult>, r: TaskResult): (d': seq<TaskResult>)
    ensures r in d'
    ensures r.id !in Ids(d) ==> d' == d + [r]
  {
    if d == [] then [r]
    else if d[0].id == r.id then
      assert Ids(d)[0] == r.id;
      [r] + d[1..]
    else
      assert Ids(d)[1..] == Ids(d[1..]);
      var tail := DictPut(d[1..], r);
      assert r.id !in Ids(d) ==> [d[0]] + tail == d + [r] by {
        if r.id in Ids(d[1..]) {
          assert r.id in Ids(d)[1..];
        }
      }
      [d[0]] + tail
  }

  function DictPutAll(d: seq<TaskResult>, rs: seq<TaskResult>): seq<TaskResult>
    decreases |rs|
  {
    if rs == [] then d else DictPutAll(DictPut(d, rs[0]), rs[1..])
  }

  // ---------------------------------------------------------------- `drained.sort(key=create_time)`

  ghost predicate SortedByTime(rs: seq<TaskResult>) {
    forall i, j :: 0 <= i < j < |rs| ==> rs[i].createTime <= rs[j].createTime
  }

  /** Put `r` in front of the first later one, so that equal times keep their order. */
  function InsertByTime(r: TaskResult, rs: seq<TaskResult>): (out: seq<TaskResult>)
    ensures multiset(out) == multiset(rs) + multiset{r}
  {
    if rs == [] || r.createTime <= rs[0].createTime then
      [r] + rs
    else
      assert rs == [rs[0]] + rs[1..];
      [rs[0]] + InsertByTime(r, rs[1..])
  }

  function SortByTime(rs: seq<TaskResult>): (out: seq<TaskResult>)
    ensures multiset(out) == multiset(rs)
    ensures |out| == |rs|
  {
    if rs == [] then []
    else
      assert rs == [rs[0]] + rs[1..];
      var out := InsertByTime(rs[0], SortByTime(rs[1..]));
      assert |multiset(out)| == |multiset(rs)|;
      out
  }

  lemma {:induction false} InsertKeepsSorted(r: TaskResult, rs: seq<TaskResult>)
    requires SortedByTime(rs)
    ensures SortedByTime(InsertByTime(r, rs))
  {
    if rs == [] || r.createTime <= rs[0].createTime {
    } else {
      InsertKeepsSorted(r, rs[1..]);
      FirstStaysFirst(r, rs, InsertByTime(r, rs[1..]));
    }
  }

  lemma FirstStaysFirst(r: TaskResult, rs: seq<TaskResult>, tail: seq<TaskResult>)
    requires rs != [] && rs[0].createTime < r.createTime && multiset(tail) == multiset(rs[1..]) + multiset{r}
    requires SortedByTime(rs) && SortedByTime(tail)
    ensures SortedByTime([rs[0]] + tail)
  {
    forall j | 0 <= j < |tail| ensures rs[0].createTime <= tail[j].createTime {
      assert tail[j] in multiset(tail);
      assert tail[j] == r || tail[j] in rs[1..];
    }
  }

  lemma {:induction false} SortingSorts(rs: seq<TaskResult>)
    ensures SortedByTime(SortByTime(rs))
  {
    if rs == [] {
    } else {
      SortingSorts(rs[1..]);
      InsertKeepsSorted(rs[0], SortByTime(rs[1..]));
    }
  }

  // ---------------------------------------------------------------- counting accepted results

  predicate IsAccepted(r: TaskResult) { r.accepted }

  /** The accepted ones among `rs`, in order. */
  function Accepted(rs: seq<TaskResult>): seq<TaskResult> { Filter(IsAccepted, rs) }

  function CountAccepted(rs: seq<TaskResult>): nat { |Accepted(rs)| }

  lemma CountAcceptedAppend(a: seq<TaskResult>, b: seq<TaskResult>)
    ensures CountAccepted(a + b) == CountAccepted(a) + CountAccepted(b)
  {
    FilterAppend(IsAccepted, a, b);
  }

  lemma CountAcceptedOne(r: TaskResult)
    ensures CountAccepted([r]) == if r.accepted then 1 else 0
  {
    assert [r][..0] == [];
    assert Filter(IsAccepted, [r][..0]) == [];
  }

  /** The count depends only on which results there are, not on their order. */
  lemma {:induction false} CountAcceptedOfBag(a: seq<TaskResult>, b: seq<TaskResult>)
    requires multiset(a) == multiset(b)
    ensures CountAccepted(a) == CountAccepted(b)
    decreases |a|
  {
    if a == [] {
      assert |multiset(b)| == 0;
    } else {
      var last := |a| - 1;
      assert a == a[..last] + [a[last]];
      CountAcceptedAppend(a[..last], [a[last]]);
      assert a[last] in multiset(b);
      var i :| 0 <= i < |b| && b[i] == a[last];
      assert b == b[..i] + [b[i]] + b[i + 1..];
      assert multiset(a[..last]) == multiset(RemoveAt(b, i)) by {
        BagCancel(multiset(a[..last]), multiset(RemoveAt(b, i)), a[last]);
      }
      CountAcceptedOfBag(a[..last], b[..i] + b[i + 1..]);
      CountAcceptedAppend(b[..i], b[i + 1..]);
      CountAcceptedAppend(b[..i] + [b[i]], b[i + 1..]);
    }
  }

  lemma IdsAppend(a: seq<TaskResult>, b: seq<TaskResult>)
    ensures Ids(a + b) == Ids(a) + Ids(b)
  {
  }

  lemma IdsRemoveAt(rs: seq<TaskResult>, i: nat)
    requires i < |rs|
    ensures multiset(Ids(rs)) == multiset(Ids(RemoveAt(rs, i))) + multiset{rs[i].id}
  {
    assert Ids(RemoveAt(rs, i)) == RemoveAt(Ids(rs), i);
  }

  lemma EntryIdsRemoveAt(es: seq<Entry>, i: nat)
    requires i < |es|
    ensures multiset(EntryIds(es)) == multiset(EntryIds(RemoveAt(es, i))) + multiset{es[i].id}
  {
    assert EntryIds(RemoveAt(es, i)) == RemoveAt(EntryIds(es), i);
  }

  /** Starting the first queued task moves its id from the queue to the table. */
  lemma StartKeepsIds(q: seq<int>, run: seq<Entry>, now: int)
    requires q != []
    ensures multiset(q[1..]) + multiset(EntryIds(run + [Entry(q[0], now, Working)]))
         == multiset(q) + multiset(EntryIds(run))
  {
    assert q == [q[0]] + q[1..];
    assert EntryIds(run + [Entry(q[0], now, Working)]) == EntryIds(run) + [q[0]];
  }

  lemma {:induction false} IdsOfBag(a: seq<TaskResult>, b: seq<TaskResult>)
    requires multiset(a) == multiset(b)
    ensures multiset(Ids(a)) == multiset(Ids(b))
    decreases |a|
  {
    if a == [] {
      assert |multiset(b)| == 0;
    } else {
      assert a[0] in multiset(b);
      var i :| 0 <= i < |b| && b[i] == a[0];
      BagCancel(multiset(RemoveAt(a, 0)), multiset(RemoveAt(b, i)), a[0]);
      IdsOfBag(RemoveAt(a, 0), RemoveAt(b, i));
      IdsRemoveAt(a, 0);
      IdsRemoveAt(b, i);
    }
  }

  // ---------------------------------------------------------------- bags of ids

  ghost predicate AtMostOnce(m: multiset<int>) { forall x :: m[x] <= 1 }

  /** Results with fresh and distinct ids are stored side by side: nothing is overwritten. */
  lemma {:induction false} DictPutAllFresh(d: seq<TaskResult>, rs: seq<TaskResult>)
    requires AtMostOnce(multiset(Ids(d)) + multiset(Ids(rs)))
    ensures DictPutAll(d, rs) == d + rs
    decreases |rs|
  {
    if rs == [] {
      assert d + rs == d;
    } else {
      var r := rs[0];
      assert rs == [r] + rs[1..];
      FirstIsFresh(d, r, rs[1..]);
      DictPutAllFresh(d + [r], rs[1..]);
      assert d + [r] + rs[1..] == d + rs;
    }
  }

  lemma FirstIsFresh(d: seq<TaskResult>, r: TaskResult, rest: seq<TaskResult>)
    requires AtMostOnce(multiset(Ids(d)) + multiset(Ids([r] + rest)))
    ensures r.id !in Ids(d) && AtMostOnce(multiset(Ids(d + [r])) + multiset(Ids(rest)))
  {
    assert Ids([r] + rest) == [r.id] + Ids(rest);
    assert Ids(d + [r]) == Ids(d) + [r.id];
    assert multiset(Ids(d + [r])) + multiset(Ids(rest)) == multiset(Ids(d)) + multiset(Ids([r] + rest));
    assert (multiset(Ids(d)) + multiset(Ids([r] + rest)))[r.id] <= 1;
    assert r.id !in multiset(Ids(d));
  }

  lemma TwoPositions(s: seq<int>, i: nat, j: nat)
    requires i < |s| && j < |s| && i != j
    ensures s[i] == s[j] ==> multiset(s)[s[i]] >= 2
  {
    var a, b := if i < j then i else j, if i < j then j else i;
    assert s == s[..a] + [s[a]] + s[a + 1..];
    assert s[a + 1..][b - a - 1] == s[b];
  }
}
