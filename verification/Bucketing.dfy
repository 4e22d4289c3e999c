/** Cutting a model's parameters into buckets for the weight update: the greedy rule of
areal/engine/fsdp_engine.py and its variant in areal/engine/megatron_engine.py. */
module Bucketing {
  import opened Arithmetic
  import opened Sequences

  /** A gathered parameter: its name and its size in bytes. */
  datatype Tensor = Tensor(name: string, size: nat)

  function Total(ts: seq<Tensor>): nat { if ts == [] then 0 else Total(ts[..|ts| - 1]) + ts[|ts| - 1].size }

  lemma {:induction false} TotalAppend(a: seq<Tensor>, b: seq<Tensor>)
    ensures Total(a + b) == Total(a) + Total(b)
  {
    if b == [] {
      assert a + b == a;
    } else {
      TotalAppend(a, b[..|b| - 1]);
      assert (a + b)[..|a + b| - 1] == a + b[..|b| - 1];
    }
  }

  // ---------------------------------------------------------------- the two loops

  predicate Overflows(cur: seq<Tensor>, t: Tensor, limit: int) {
    Total(cur) > 0 && t.size + Total(cur) > limit
  }

  /** The buckets that the FSDP loop sends for `ps` when `cur` is already in the open bucket. */
  function Cut(ps: seq<Tensor>, cur: seq<Tensor>, limit: int): seq<seq<Tensor>>
    decreases |ps|
  {
    if ps == [] then (if Total(cur) > 0 then [cur] else [])
    else if Overflows(cur, ps[0], limit) then [cur] + Cut(ps[1..], [ps[0]], limit)
    else Cut(ps[1..], cur + [ps[0]], limit)
  }

  /** Sending an empty bucket is a no-op. */
  function Nonempty(cur: seq<Tensor>): seq<seq<Tensor>> { if cur == [] then [] else [cur] }

  /** A tensor of `size` bytes on each of `copies` ranks does not fit beside `total`. */
  predicate OverLimit(total: nat, size: nat, limit: int, copies: nat) { (total + size) * copies > limit }

  /** The buckets of the Megatron loop; `copies` is 1 for dense parameters and the expert-parallel size
  for expert parameters. */
  function MegatronCut(ps: seq<Tensor>, cur: seq<Tensor>, limit: int, copies: nat): seq<seq<Tensor>>
    decreases |ps|
  {
    if ps == [] then Nonempty(cur)
    else if OverLimit(Total(cur), ps[0].size, limit, copies) then
      Nonempty(cur) + MegatronCut(ps[1..], [ps[0]], limit, copies)
    else MegatronCut(ps[1..], cur + [ps[0]], limit, copies)
  }

  predicate AllPositive(ps: seq<Tensor>) { forall i :: 0 <= i < |ps| ==> ps[i].size > 0 }

  /** With positive sizes Megatron cuts where FSDP cuts; for experts the limit is divided among the
  expert-parallel ranks. */
  lemma {:induction false} MegatronCutsAlike(ps: seq<Tensor>, cur: seq<Tensor>, limit: nat, copies: nat)
    requires AllPositive(ps) && AllPositive(cur) && copies > 0
    ensures MegatronCut(ps, cur, limit, copies) == Cut(ps, cur, limit / copies)
    decreases |ps|
  {
    PositiveTotal(cur);
    if ps == [] {
    } else {
      FitsAmongCopies(Total(cur) + ps[0].size, limit, copies);
      if OverLimit(Total(cur), ps[0].size, limit, copies) {
        MegatronCutsAlike(ps[1..], [ps[0]], limit, copies);
        assert [] + [ps[0]] == [ps[0]];
      } else {
        MegatronCutsAlike(ps[1..], cur + [ps[0]], limit, copies);
      }
    }
  }

  lemma FitsAmongCopies(x: int, limit: nat, copies: nat)
    requires copies > 0
    ensures x * copies > limit <==> x > limit / copies
  {
    var q, r := limit / copies, limit % copies;
    assert limit == q * copies + r;
    assert x * copies - limit == (x - q) * copies - r;
    MulAtLeast(x - q, copies);
  }

  lemma {:induction false} PositiveTotal(cur: seq<Tensor>)
    requires AllPositive(cur)
    ensures Total(cur) > 0 <==> cur != []
  {
    if cur == [] {
    } else {
      assert cur[|cur| - 1].size > 0;
    }
  }

  // ---------------------------------------------------------------- completeness

  /** The open bucket when the FSDP loop ends. */
  function Open(ps: seq<Tensor>, limit: int): seq<Tensor> {
    if ps == [] then []
    else
      var o, t := Open(ps[..|ps| - 1], limit), ps[|ps| - 1];
      if Overflows(o, t, limit) then [t] else o + [t]
  }

  /** The buckets closed before that. */
  function Closed(ps: seq<Tensor>, limit: int): seq<seq<Tensor>> {
    if ps == [] then []
    else
      var o, t := Open(ps[..|ps| - 1], limit), ps[|ps| - 1];
      Closed(ps[..|ps| - 1], limit) + (if Overflows(o, t, limit) then [o] else [])
  }

  lemma {:induction false} CutFrom(done: seq<Tensor>, ps: seq<Tensor>, limit: int)
    ensures Closed(done, limit) + Cut(ps, Open(done, limit), limit) == Cut(done + ps, [], limit)
    decreases |done|
  {
    if done == [] {
      assert done + ps == ps;
    } else {
      var init, t := done[..|done| - 1], done[|done| - 1];
      CutFrom(init, [t] + ps, limit);
      assert init + ([t] + ps) == done + ps;
      assert ([t] + ps)[1..] == ps;
      Reassociate(Closed(init, limit), Open(init, limit), Cut(ps, [t], limit));
    }
  }

  lemma Reassociate(a: seq<seq<Tensor>>, o: seq<Tensor>, b: seq<seq<Tensor>>)
    ensures a + ([o] + b) == a + [o] + b
    ensures a + [] == a
  {
  }

  lemma OneMoreParameter(init: seq<Tensor>, t: Tensor, limit: int)
    ensures var o := Open(init, limit);
            if Overflows(o, t, limit)
            then Closed(init + [t], limit) == Closed(init, limit) + [o] && Open(init + [t], limit) == [t]
            else Closed(init + [t], limit) == Closed(init, limit) && Open(init + [t], limit) == o + [t]
  {
    assert (init + [t])[..|init|] == init;
  }

  /** Closing the open bucket or putting a tensor into it appends that tensor to the parameters so far. */
  lemma ClosesOrGrows(closed: seq<seq<Tensor>>, o: seq<Tensor>, init: seq<Tensor>, t: Tensor)
    requires Flatten(closed) + o == init
    ensures Flatten(closed + [o]) + [t] == init + [t]
    ensures Flatten(closed) + (o + [t]) == init + [t]
  {
    FlattenAppend(closed, [o]);
    FlattenOne(o);
  }

  lemma {:induction false} ClosedThenOpen(ps: seq<Tensor>, limit: int)
    ensures Flatten(Closed(ps, limit)) + Open(ps, limit) == ps
  {
    if ps == [] {
    } else {
      var init, t := ps[..|ps| - 1], ps[|ps| - 1];
      assert ps == init + [t];
      ClosedThenOpen(init, limit);
      OneMoreParameter(init, t, limit);
      ClosesOrGrows(Closed(init, limit), Open(init, limit), init, t);
    }
  }

  /** The size of the last tensor that is not empty. */
  function LastNonzero(ps: seq<Tensor>): nat {
    if ps == [] then 0 else if ps[|ps| - 1].size > 0 then ps[|ps| - 1].size else LastNonzero(ps[..|ps| - 1])
  }

  lemma {:induction false} OpenTotal(ps: seq<Tensor>, limit: nat)
    ensures ps != [] ==> Open(ps, limit) != []
    ensures LastNonzero(ps) == 0 ==> Total(Open(ps, limit)) == 0
    ensures 0 < LastNonzero(ps) <= limit ==> 0 < Total(Open(ps, limit)) <= limit
    ensures limit < LastNonzero(ps) && ps[|ps| - 1].size > 0 ==> Total(Open(ps, limit)) > limit
    ensures limit < LastNonzero(ps) && ps[|ps| - 1].size == 0 ==> Total(Open(ps, limit)) == 0
  {
    if ps == [] {
    } else {
      var init, t := ps[..|ps| - 1], ps[|ps| - 1];
      OpenTotal(init, limit);
      TotalAppend(Open(init, limit), [t]);
      TotalAppend([], [t]);
    }
  }

  /** What the FSDP loop forgets: empty tensors after a last non-empty one that exceeds the limit on its
  own, or nothing but empty tensors. The final test is `buffer_size > 0`. */
  predicate ForgetsTail(ps: seq<Tensor>, limit: int) {
    ps != [] && ps[|ps| - 1].size == 0 && (LastNonzero(ps) == 0 || LastNonzero(ps) > limit)
  }

  /** Every parameter is sent, once and in order, unless that happens. */
  lemma CompleteUnlessTailForgotten(ps: seq<Tensor>, limit: nat)
    ensures Flatten(Cut(ps, [], limit)) == ps <==> !ForgetsTail(ps, limit)
  {
    CutFrom(ps, [], limit);
    assert ps + [] == ps;
    ClosedThenOpen(ps, limit);
    OpenTotal(ps, limit);
    var o := Open(ps, limit);
    FlattenAppend(Closed(ps, limit), Cut([], o, limit));
    assert Total(o) > 0 ==> Flatten([o]) == o;
    assert |Flatten(Closed(ps, limit)) + o| == |ps|;
  }

  lemma PositiveIsComplete(ps: seq<Tensor>, limit: nat)
    requires AllPositive(ps)
    ensures Flatten(Cut(ps, [], limit)) == ps
  {
    CompleteUnlessTailForgotten(ps, limit);
  }

  /** The Megatron loop tests whether the list is empty, and forgets nothing. */
  lemma {:induction false} MegatronIsComplete(ps: seq<Tensor>, cur: seq<Tensor>, limit: int, copies: nat)
    ensures Flatten(MegatronCut(ps, cur, limit, copies)) == cur + ps
    decreases |ps|
  {
    assert Flatten(Nonempty(cur)) == cur;
    if ps == [] {
      assert cur + ps == cur;
    } else if OverLimit(Total(cur), ps[0].size, limit, copies) {
      MegatronIsComplete(ps[1..], [ps[0]], limit, copies);
      FlattenAppend(Nonempty(cur), MegatronCut(ps[1..], [ps[0]], limit, copies));
      assert cur + ([ps[0]] + ps[1..]) == cur + ps;
    } else {
      MegatronIsComplete(ps[1..], cur + [ps[0]], limit, copies);
      assert cur + [ps[0]] + ps[1..] == cur + ps;
    }
  }

  // ---------------------------------------------------------------- optimality

  predicate WithinLimit(b: seq<Tensor>, limit: int) { |b| > 0 && (Total(b) <= limit || |b| == 1) }

  /** An in-order split of `ps` into buckets that obey the limit. */
  predicate ValidSplit(bs: seq<seq<Tensor>>, ps: seq<Tensor>, limit: int) {
    Flatten(bs) == ps && forall b :: b in bs ==> WithinLimit(b, limit)
  }

  /** How many tensors of `ps` still fit when `used` bytes are taken. */
  function Fit(used: nat, ps: seq<Tensor>, limit: int): (k: nat)
    ensures k <= |ps|
    decreases |ps|
  {
    if ps == [] || used + ps[0].size > limit then 0 else 1 + Fit(used + ps[0].size, ps[1..], limit)
  }

  lemma TotalFirst(ps: seq<Tensor>, j: nat)
    requires ps != [] && 1 <= j <= |ps|
    ensures Total(ps[..j]) == ps[0].size + Total(ps[1..][..j - 1])
  {
    TotalAppend([], [ps[0]]);
    TotalAppend([ps[0]], ps[1..][..j - 1]);
    assert ps[..j] == [ps[0]] + ps[1..][..j - 1];
  }

  lemma {:induction false} FitFits(used: nat, ps: seq<Tensor>, limit: int)
    ensures var k := Fit(used, ps, limit); k > 0 ==> used + Total(ps[..k]) <= limit
    decreases |ps|
  {
    var k := Fit(used, ps, limit);
    if k == 0 {
    } else {
      FitFits(used + ps[0].size, ps[1..], limit);
      TotalFirst(ps, k);
    }
  }

  lemma {:induction false} FitIsMaximal(used: nat, ps: seq<Tensor>, limit: int, j: nat)
    requires j <= |ps|
    ensures used + Total(ps[..j]) <= limit ==> j <= Fit(used, ps, limit)
    decreases |ps|
  {
    if j == 0 {
    } else {
      TotalFirst(ps, j);
      FitIsMaximal(used + ps[0].size, ps[1..], limit, j - 1);
    }
  }

  /** The length of the first greedy bucket. */
  function First(ps: seq<Tensor>, limit: int): (k: nat)
    requires ps != []
    ensures 1 <= k <= |ps|
  {
    1 + Fit(ps[0].size, ps[1..], limit)
  }

  /** Greedy packing: the longest bucket first, then the rest. */
  function Greedy(ps: seq<Tensor>, limit: int): seq<seq<Tensor>>
    decreases |ps|
  {
    if ps == [] then [] else [ps[..First(ps, limit)]] + Greedy(ps[First(ps, limit)..], limit)
  }

  lemma CutUnfolds(ps: seq<Tensor>, cur: seq<Tensor>, limit: int)
    requires ps != [] && Total(cur) > 0
    ensures Total(cur) + ps[0].size > limit ==> Cut(ps, cur, limit) == [cur] + Cut(ps[1..], [ps[0]], limit)
    ensures Total(cur) + ps[0].size <= limit ==> Cut(ps, cur, limit) == Cut(ps[1..], cur + [ps[0]], limit)
  {
  }

  lemma {:induction false} CutIsGreedy(ps: seq<Tensor>, cur: seq<Tensor>, limit: int, k: nat)
    requires AllPositive(ps) && Total(cur) > 0 && k == Fit(Total(cur), ps, limit)
    ensures Cut(ps, cur, limit) == [cur + ps[..k]] + Greedy(ps[k..], limit)
    decreases |ps|
  {
    if ps == [] {
      NoneTaken(cur, ps);
    } else {
      TotalAppend(cur, [ps[0]]);
      TotalAppend([], [ps[0]]);
      if Total(cur) + ps[0].size > limit {
        CutIsGreedy(ps[1..], [ps[0]], limit, Fit(ps[0].size, ps[1..], limit));
        ClosesHere(ps, cur, limit);
      } else {
        CutIsGreedy(ps[1..], cur + [ps[0]], limit, k - 1);
        KeepsFilling(ps, cur, limit, k - 1);
      }
    }
  }

  lemma KeepsFilling(ps: seq<Tensor>, cur: seq<Tensor>, limit: int, k: nat)
    requires ps != [] && Total(cur) > 0 && Total(cur) + ps[0].size <= limit && k < |ps|
    requires Cut(ps[1..], cur + [ps[0]], limit) == [cur + [ps[0]] + ps[1..][..k]] + Greedy(ps[1..][k..], limit)
    ensures Cut(ps, cur, limit) == [cur + ps[..k + 1]] + Greedy(ps[k + 1..], limit)
  {
    OneMore(cur, ps, k);
    CutUnfolds(ps, cur, limit);
  }

  lemma ClosesHere(ps: seq<Tensor>, cur: seq<Tensor>, limit: int)
    requires ps != [] && Total(cur) > 0 && Total(cur) + ps[0].size > limit
    requires var j := Fit(ps[0].size, ps[1..], limit);
             Cut(ps[1..], [ps[0]], limit) == [[ps[0]] + ps[1..][..j]] + Greedy(ps[1..][j..], limit)
    ensures Cut(ps, cur, limit) == [cur + ps[..0]] + Greedy(ps[0..], limit)
  {
    CutUnfolds(ps, cur, limit);
    GreedyUnfolds(ps, limit);
    NoneTaken(cur, ps);
  }

  lemma GreedyUnfolds(ps: seq<Tensor>, limit: int)
    requires ps != []
    ensures var j := Fit(ps[0].size, ps[1..], limit);
            Greedy(ps, limit) == [[ps[0]] + ps[1..][..j]] + Greedy(ps[1..][j..], limit)
  {
    var j := Fit(ps[0].size, ps[1..], limit);
    FirstAndRest(ps, j);
    assert Greedy(ps, limit) == [ps[..j + 1]] + Greedy(ps[j + 1..], limit);
  }

  lemma FirstAndRest(ps: seq<Tensor>, j: nat)
    requires ps != [] && j <= |ps| - 1
    ensures [ps[0]] + ps[1..][..j] == ps[..j + 1] && ps[1..][j..] == ps[j + 1..]
  {
  }

  lemma NoneTaken(cur: seq<Tensor>, ps: seq<Tensor>)
    ensures cur + ps[..0] == cur && ps[0..] == ps
  {
  }

  lemma OneMore(cur: seq<Tensor>, ps: seq<Tensor>, j: nat)
    requires ps != [] && j <= |ps| - 1
    ensures cur + [ps[0]] + ps[1..][..j] == cur + ps[..j + 1]
    ensures ps[1..][j..] == ps[j + 1..]
  {
  }

  lemma FsdpIsGreedy(ps: seq<Tensor>, limit: int)
    requires AllPositive(ps)
    ensures Cut(ps, [], limit) == Greedy(ps, limit)
  {
    if ps != [] {
      OpensWithFirst(ps, limit);
      TotalAppend([], [ps[0]]);
      CutIsGreedy(ps[1..], [ps[0]], limit, Fit(ps[0].size, ps[1..], limit));
      GreedyUnfolds(ps, limit);
    }
  }

  lemma OpensWithFirst(ps: seq<Tensor>, limit: int)
    requires ps != []
    ensures Cut(ps, [], limit) == Cut(ps[1..], [ps[0]], limit)
  {
    assert [] + [ps[0]] == [ps[0]];
  }

  /** The first greedy bucket obeys the limit, and no longer prefix of two or more tensors does. */
  lemma FirstIsLongest(ps: seq<Tensor>, limit: int, j: nat)
    requires ps != [] && 1 <= j <= |ps|
    ensures WithinLimit(ps[..First(ps, limit)], limit)
    ensures WithinLimit(ps[..j], limit) ==> j <= First(ps, limit)
  {
    FitFits(ps[0].size, ps[1..], limit);
    FitIsMaximal(ps[0].size, ps[1..], limit, j - 1);
    TotalFirst(ps, j);
    TotalFirst(ps, First(ps, limit));
  }

  /** Starting later never needs more buckets. */
  lemma {:induction false} SuffixNeedsNoMore(ps: seq<Tensor>, limit: int, j: nat)
    requires j <= |ps|
    ensures |Greedy(ps[j..], limit)| <= |Greedy(ps, limit)|
    decreases |ps|
  {
    if j == |ps| {
    } else if j >= First(ps, limit) {
      var k := First(ps, limit);
      SuffixNeedsNoMore(ps[k..], limit, j - k);
      StartsInTheRest(ps, limit, j);
    } else {
      ReachesAsFar(ps, limit, j);
      var k, e := First(ps, limit), First(ps[j..], limit);
      SuffixNeedsNoMore(ps[k..], limit, j + e - k);
      StartsInTheFirst(ps, limit, j, e);
    }
  }

  lemma StartsInTheRest(ps: seq<Tensor>, limit: int, j: nat)
    requires ps != [] && First(ps, limit) <= j <= |ps|
    requires var rest := ps[First(ps, limit)..]; |Greedy(rest[j - First(ps, limit)..], limit)| <= |Greedy(rest, limit)|
    ensures |Greedy(ps[j..], limit)| <= |Greedy(ps, limit)|
  {
    DropDrop(ps, First(ps, limit), j - First(ps, limit));
    GreedyCount(ps, limit);
  }

  lemma StartsInTheFirst(ps: seq<Tensor>, limit: int, j: nat, e: nat)
    requires j < |ps| && e == First(ps[j..], limit) && First(ps, limit) <= j + e
    requires var rest := ps[First(ps, limit)..];
             |Greedy(rest[j + e - First(ps, limit)..], limit)| <= |Greedy(rest, limit)|
    ensures |Greedy(ps[j..], limit)| <= |Greedy(ps, limit)|
  {
    DropDrop(ps, First(ps, limit), j + e - First(ps, limit));
    DropDrop(ps, j, e);
    GreedyCount(ps, limit);
    GreedyCount(ps[j..], limit);
  }

  lemma GreedyCount(ps: seq<Tensor>, limit: int)
    requires ps != []
    ensures |Greedy(ps, limit)| == 1 + |Greedy(ps[First(ps, limit)..], limit)|
  {
  }

  lemma DropDrop(ps: seq<Tensor>, a: nat, b: nat)
    requires a + b <= |ps|
    ensures ps[a..][b..] == ps[a + b..]
  {
  }

  lemma ReachesAsFar(ps: seq<Tensor>, limit: int, j: nat)
    requires ps != [] && j < First(ps, limit)
    ensures j + First(ps[j..], limit) >= First(ps, limit)
  {
    var k := First(ps, limit);
    FirstIsLongest(ps, limit, k);
    var b := ps[j..][..k - j];
    assert ps[..k] == ps[..j] + b;
    TotalAppend(ps[..j], b);
    FirstIsLongest(ps[j..], limit, k - j);
  }

  /** Greedy packing is optimal: no in-order split that obeys the limit uses fewer buckets. */
  lemma {:induction false} GreedyIsOptimal(bs: seq<seq<Tensor>>, ps: seq<Tensor>, limit: int)
    requires ValidSplit(bs, ps, limit)
    ensures |Greedy(ps, limit)| <= |bs|
    decreases |bs|
  {
    if bs == [] {
    } else {
      var b, rest := bs[0], Flatten(bs[1..]);
      assert b in bs && ps == b + rest;
      var k := First(ps, limit);
      assert ps[..|b|] == b;
      FirstIsLongest(ps, limit, |b|);
      assert ValidSplit(bs[1..], rest, limit);
      GreedyIsOptimal(bs[1..], rest, limit);
      SuffixNeedsNoMore(rest, limit, k - |b|);
      assert rest[k - |b|..] == ps[k..];
    }
  }

  lemma {:induction false} GreedyObeysLimit(ps: seq<Tensor>, limit: int)
    ensures forall b :: b in Greedy(ps, limit) ==> WithinLimit(b, limit)
    decreases |ps|
  {
    if ps == [] {
    } else {
      FirstIsLongest(ps, limit, 1);
      GreedyObeysLimit(ps[First(ps, limit)..], limit);
    }
  }

  /** For positive sizes the FSDP loop splits the parameters in order, within the limit or one oversized
  tensor at a time, with as few buckets as any such split. */
  lemma FsdpBucketsAreOptimal(ps: seq<Tensor>, limit: nat)
    requires AllPositive(ps)
    ensures ValidSplit(Cut(ps, [], limit), ps, limit)
    ensures forall bs :: ValidSplit(bs, ps, limit) ==> |Cut(ps, [], limit)| <= |bs|
  {
    FsdpIsGreedy(ps, limit);
    PositiveIsComplete(ps, limit);
    GreedyObeysLimit(ps, limit);
    forall bs | ValidSplit(bs, ps, limit) ensures |Cut(ps, [], limit)| <= |bs| {
      GreedyIsOptimal(bs, ps, limit);
    }
  }

  /** With positive sizes the Megatron buckets are the best for the limit on what is gathered from all
  copies. */
  lemma MegatronBucketsAreOptimal(ps: seq<Tensor>, limit: nat, copies: nat)
    requires AllPositive(ps) && copies > 0
    ensures var bs := MegatronCut(ps, [], limit, copies);
            Flatten(bs) == ps && (forall i :: 0 <= i < |bs| ==> |bs[i]| == 1 || Total(bs[i]) * copies <= limit)
            && (forall others :: ValidSplit(others, ps, limit / copies) ==> |bs| <= |others|)
    ensures forall n: nat :: n * copies <= limit <==> n <= limit / copies
  {
    var bs := MegatronCut(ps, [], limit, copies);
    MegatronCutsAlike(ps, [], limit, copies);
    FsdpBucketsAreOptimal(ps, limit / copies);
    forall i | 0 <= i < |bs| ensures |bs[i]| == 1 || Total(bs[i]) * copies <= limit {
      assert bs[i] in bs;
      FitsAmongCopies(Total(bs[i]), limit, copies);
    }
    forall n: nat ensures n * copies <= limit <==> n <= limit / copies {
      FitsAmongCopies(n, limit, copies);
    }
  }
}
