/** Broadcasting the weights bucket by bucket: `_update_weights_from_distributed` of
areal/engine/fsdp_engine.py, which gathers into one bucket while another is in flight, and the Megatron
loops, which send synchronously. A trace records what the update does, in order. */
module WeightUpdate {
  import opened Arithmetic
  import opened Sequences
  import opened Bucketing

  datatype Event =
    | Paused                       // generation is paused
    | Gathered(tensor: Tensor)     // a full tensor is materialised
    | Sent(tensors: seq<Tensor>)   // the broadcast of a bucket starts
    | Awaited(tensors: seq<Tensor>) // it is complete, and the bucket's list is cleared
    | Continued                    // generation goes on

  /** A list that several variables may refer to. */
  class TensorList {
    var items: seq<Tensor>
    constructor ()
      ensures items == []
    {
      items := [];
    }
  }

  /** The handle of a bucket in flight; it keeps the list that was sent. */
  class PendingBucket {
    const tensors: TensorList
    constructor (tensors: TensorList)
      ensures this.tensors == tensors
    {
      this.tensors := tensors;
    }
  }

  /** `pending` holds at most one bucket. */
  function WaitThen(pending: seq<seq<Tensor>>, rest: seq<Event>): seq<Event> {
    if pending == [] then rest else [Awaited(pending[0])] + rest
  }

  /** The last bucket is sent synchronously; the code tests its size in bytes. */
  function SendNow(cur: seq<Tensor>): seq<Event> { if Total(cur) > 0 then [Sent(cur)] + [Awaited(cur)] else [] }

  /** What remains to be done on rank 0 for `ps` when `cur` fills the open bucket and `pending` is in flight;
  gathering parameter number `fail` raises. */
  function Steps(ps: seq<Tensor>, cur: seq<Tensor>, pending: seq<seq<Tensor>>, limit: int, fail: nat): seq<Event>
    decreases |ps|
  {
    if ps == [] then WaitThen(pending, SendNow(cur))
    else if fail == 0 then WaitThen(pending, [])
    else if Overflows(cur, ps[0], limit) then
      [Gathered(ps[0])] + WaitThen(pending, [Sent(cur)] + Steps(ps[1..], [ps[0]], [cur], limit, fail - 1))
    else [Gathered(ps[0])] + Steps(ps[1..], cur + [ps[0]], pending, limit, fail - 1)
  }

  function Gathers(ps: seq<Tensor>, fail: nat): seq<Event>
  {
    if ps == [] || fail == 0 then [] else [Gathered(ps[0])] + Gathers(ps[1..], fail - 1)
  }

  /** The whole update. Ranks other than 0 only help to gather. */
  function Update(main: bool, ps: seq<Tensor>, limit: int, fail: nat): seq<Event> {
    if main then [Paused] + Steps(ps, [], [], limit, fail) + (if fail < |ps| then [] else [Continued])
    else Gathers(ps, fail)
  }

  function Rest(main: bool, ps: seq<Tensor>, cur: seq<Tensor>, pending: seq<seq<Tensor>>, limit: int,
                fail: nat): seq<Event> {
    if main then Steps(ps, cur, pending, limit, fail) else Gathers(ps, fail)
  }

  lemma OneStep(trace: seq<Event>, main: bool, ps: seq<Tensor>, n: nat, cur: seq<Tensor>, pending: seq<seq<Tensor>>,
                limit: int, fail: nat)
    requires n < |ps| && n < fail
    ensures var rest := ps[n + 1..];
            trace + Rest(main, ps[n..], cur, pending, limit, fail - n) ==
              if !main then trace + [Gathered(ps[n])] + Rest(main, rest, cur, pending, limit, fail - n - 1)
              else if Overflows(cur, ps[n], limit)
              then trace + [Gathered(ps[n])] + WaitThen(pending, [Sent(cur)])
                + Rest(main, rest, [ps[n]], [cur], limit, fail - n - 1)
              else trace + [Gathered(ps[n])] + Rest(main, rest, cur + [ps[n]], pending, limit, fail - n - 1)
  {
    assert ps[n..][0] == ps[n] && ps[n..][1..] == ps[n + 1..];
    if main && Overflows(cur, ps[n], limit) {
      Regroup(trace, Gathered(ps[n]), pending, Sent(cur), Steps(ps[n + 1..], [ps[n]], [cur], limit, fail - n - 1));
    }
  }

  /** With `n` parameters done, the trace and the rest make up the whole trace from `start`. */
  ghost predicate OnTrack(trace: seq<Event>, start: seq<Event>, main: bool, ps: seq<Tensor>, n: nat, cur: seq<Tensor>,
                          pending: seq<seq<Tensor>>, limit: int, fail: nat)
    requires n <= |ps| && n <= fail
  {
    trace + Rest(main, ps[n..], cur, pending, limit, fail - n) == start + Rest(main, ps, [], [], limit, fail)
  }

  lemma StaysOnTrack(trace: seq<Event>, start: seq<Event>, main: bool, ps: seq<Tensor>, n: nat, cur: seq<Tensor>,
                     pending: seq<seq<Tensor>>, limit: int, fail: nat)
    requires n < |ps| && n < fail && OnTrack(trace, start, main, ps, n, cur, pending, limit, fail)
    ensures var gathered := trace + [Gathered(ps[n])];
            if !main then OnTrack(gathered, start, main, ps, n + 1, cur, pending, limit, fail)
            else if Overflows(cur, ps[n], limit)
            then OnTrack(gathered + WaitThen(pending, [Sent(cur)]), start, main, ps, n + 1, [ps[n]], [cur], limit, fail)
            else OnTrack(gathered, start, main, ps, n + 1, cur + [ps[n]], pending, limit, fail)
  {
    OneStep(trace, main, ps, n, cur, pending, limit, fail);
  }

  lemma OneMoreTensor(ts: seq<Tensor>, t: Tensor)
    ensures Total(ts + [t]) == Total(ts) + t.size && (ts == [] ==> ts + [t] == [t])
  {
    assert (ts + [t])[..|ts|] == ts;
  }

  lemma SentAndAwaited(trace: seq<Event>, pending: seq<seq<Tensor>>, cur: seq<Tensor>)
    ensures trace + WaitThen(pending, [Sent(cur)] + [Awaited(cur)])
            == trace + WaitThen(pending, []) + [Sent(cur)] + [Awaited(cur)]
  {
  }

  lemma AtTheEnd(main: bool, ps: seq<Tensor>, cur: seq<Tensor>, pending: seq<seq<Tensor>>, limit: int, fail: nat)
    requires !main ==> pending == [] && Total(cur) == 0
    requires ps == [] || fail == 0
    ensures Rest(main, ps, cur, pending, limit, fail) ==
            if ps == [] then Steps([], cur, pending, 0, 0) else WaitThen(pending, [])
  {
  }

  lemma Assembled(trace: seq<Event>, main: bool, ps: seq<Tensor>, limit: int, fail: nat)
    ensures trace + Update(main, ps, limit, fail) ==
            if !main then trace + Rest(main, ps, [], [], limit, fail)
            else if fail < |ps| then trace + [Paused] + Rest(main, ps, [], [], limit, fail)
            else trace + [Paused] + Rest(main, ps, [], [], limit, fail) + [Continued]
  {
  }

  lemma Regroup(trace: seq<Event>, g: Event, pending: seq<seq<Tensor>>, sent: Event, rest: seq<Event>)
    ensures trace + ([g] + WaitThen(pending, [sent] + rest)) == trace + [g] + WaitThen(pending, [sent]) + rest
  {
  }

  // ---------------------------------------------------------------- the FSDP loop

  class FsdpEngine {
    var trace: seq<Event>

    constructor ()
      ensures trace == []
    {
      trace := [];
    }

    /** Starts the broadcast of a bucket; nothing happens for an empty list. */
    method SendBucket(list: TensorList) returns (pending: PendingBucket?)
      modifies this`trace
      ensures list.items == [] ==> pending == null && trace == old(trace)
      ensures list.items != [] ==> fresh(pending) && pending.tensors == list && trace == old(trace) + [Sent(list.items)]
    {
      if list.items == [] { return null; }
      pending := new PendingBucket(list);
      trace := trace + [Sent(list.items)];
    }

    /** Waits for a bucket in flight and clears its list, whoever else holds it. */
    method WaitBucket(pending: PendingBucket?)
      modifies this`trace, if pending == null then {} else {pending.tensors}
      ensures pending == null ==> trace == old(trace)
      ensures pending != null ==>
              trace == old(trace) + [Awaited(old(pending.tensors.items))] && pending.tensors.items == []
    {
      if pending == null { return; }
      trace := trace + [Awaited(pending.tensors.items)];
      pending.tensors.items := [];
    }

    /** The bucket in flight, by value. */
    static ghost function InFlight(pending: PendingBucket?): seq<seq<Tensor>>
      reads if pending == null then {} else {pending.tensors}
    {
      if pending == null then [] else [pending.tensors.items]
    }

    /** Puts a gathered tensor into the open list, after sending that list if the tensor does not fit. */
    method AddTensor(list: TensorList, bufferSize: nat, pending: PendingBucket?, tensor: Tensor, limit: int)
      returns (list': TensorList, bufferSize': nat, pending': PendingBucket?)
      requires bufferSize == Total(list.items)
      requires pending != null ==> pending.tensors != list
      modifies this`trace, list, if pending == null then {} else {pending.tensors}
      ensures bufferSize' == Total(list'.items)
      ensures pending' != null ==> pending'.tensors != list'
      ensures if Overflows(old(list.items), tensor, limit)
              then fresh(list') && list'.items == [tensor] && pending' != null && pending'.tensors == list
                   && list.items == old(list.items)
                   && trace == old(trace) + WaitThen(old(InFlight(pending)), [Sent(list.items)])
              else list' == list && list.items == old(list.items) + [tensor] && pending' == pending
                   && InFlight(pending) == old(InFlight(pending)) && trace == old(trace)
    {
      list', bufferSize', pending' := list, bufferSize, pending;
      if bufferSize > 0 && tensor.size + bufferSize > limit {
        WaitBucket(pending);
        pending' := SendBucket(list);
        list' := new TensorList();
        bufferSize' := 0;
      }
      bufferSize' := bufferSize' + tensor.size;
      OneMoreTensor(list'.items, tensor);
      list'.items := list'.items + [tensor];
    }

    /** After the last parameter: waits for the bucket in flight, then sends what is left and waits for it. */
    method Finish(list: TensorList, bufferSize: nat, pending: PendingBucket?)
      requires bufferSize == Total(list.items)
      requires pending != null ==> pending.tensors != list
      modifies this`trace, list, if pending == null then {} else {pending.tensors}
      ensures trace == old(trace) + Steps([], old(list.items), old(InFlight(pending)), 0, 0)
    {
      WaitBucket(pending);
      SentAndAwaited(old(trace), old(InFlight(pending)), list.items);
      if bufferSize > 0 {
        var last := SendBucket(list);
        WaitBucket(last);
      }
    }

    /** The update: fills one list while the list of the previous bucket is in flight. Although waiting clears
    the pending list, the trace is that of the value semantics `Update`. */
    method UpdateWeights(main: bool, ps: seq<Tensor>, limit: int, fail: nat) returns (raised: bool)
      modifies this`trace
      ensures raised <==> fail < |ps|
      ensures trace == old(trace) + Update(main, ps, limit, fail)
    {
      if main { trace := trace + [Paused]; }
      var bufferSize := 0;
      var list := new TensorList();
      var pending: PendingBucket? := null;
      var n := 0;
      ghost var start := trace;
      assert ps[0..] == ps;
      while n < |ps| && n != fail
        invariant n <= |ps| && n <= fail
        invariant fresh(list) && (pending != null ==> fresh(pending.tensors) && pending.tensors != list)
        invariant bufferSize == Total(list.items)
        invariant !main ==> pending == null && bufferSize == 0
        invariant OnTrack(trace, start, main, ps, n, list.items, InFlight(pending), limit, fail)
      {
        StaysOnTrack(trace, start, main, ps, n, list.items, InFlight(pending), limit, fail);
        trace := trace + [Gathered(ps[n])];
        if main {
          list, bufferSize, pending := AddTensor(list, bufferSize, pending, ps[n], limit);
        }
        n := n + 1;
      }
      raised := n < |ps|;
      AtTheEnd(main, ps[n..], list.items, InFlight(pending), limit, fail - n);
      if !raised {
        Finish(list, bufferSize, pending);
      } else if main {
        WaitBucket(pending);
      }
      assert trace == start + Rest(main, ps, [], [], limit, fail);
      if main && !raised { trace := trace + [Continued]; }
      Assembled(old(trace), main, ps, limit, fail);
    }
  }

  // ---------------------------------------------------------------- at most one bucket in flight

  datatype Phase = Outside | Idle | Busy(bucket: seq<Tensor>) | Illegal

  /** Sends and waits happen only while generation is paused, a send needs an idle channel, a wait is for the
  very bucket that was sent last, and generation goes on only when the channel is idle. */
  function Step(p: Phase, e: Event): Phase {
    match (p, e)
    case (Outside, Paused) => Idle
    case (Idle, Gathered(_)) => Idle
    case (Busy(_), Gathered(_)) => p
    case (Idle, Sent(ts)) => Busy(ts)
    case (Busy(b), Awaited(ts)) => if b == ts then Idle else Illegal
    case (Idle, Continued) => Outside
    case _ => Illegal
  }

  function Follow(es: seq<Event>, p: Phase): Phase { if es == [] then p else Follow(es[1..], Step(p, es[0])) }

  function PhaseOf(pending: seq<seq<Tensor>>): Phase { if pending == [] then Idle else Busy(pending[0]) }

  lemma FollowHead(e: Event, rest: seq<Event>, p: Phase)
    ensures Follow([e] + rest, p) == Follow(rest, Step(p, e))
  {
    assert ([e] + rest)[1..] == rest;
  }

  /** `es` is legal from `p` on and leaves the channel idle. */
  predicate Settles(es: seq<Event>, p: Phase) { Follow(es, p) == Idle }

  lemma WaitFollows(pending: seq<seq<Tensor>>, rest: seq<Event>)
    requires Settles(rest, Idle)
    ensures Settles(WaitThen(pending, rest), PhaseOf(pending))
  {
    if pending != [] {
      FollowHead(Awaited(pending[0]), rest, PhaseOf(pending));
    }
  }

  lemma GatherFollows(t: Tensor, pending: seq<seq<Tensor>>, rest: seq<Event>)
    requires Settles(rest, PhaseOf(pending))
    ensures Settles([Gathered(t)] + rest, PhaseOf(pending))
  {
    FollowHead(Gathered(t), rest, PhaseOf(pending));
  }

  lemma OverflowFollows(t: Tensor, cur: seq<Tensor>, pending: seq<seq<Tensor>>, rest: seq<Event>)
    requires Settles(rest, PhaseOf([cur]))
    ensures Settles([Gathered(t)] + WaitThen(pending, [Sent(cur)] + rest), PhaseOf(pending))
  {
    FollowHead(Sent(cur), rest, Idle);
    WaitFollows(pending, [Sent(cur)] + rest);
    GatherFollows(t, pending, WaitThen(pending, [Sent(cur)] + rest));
  }

  lemma LastFollows(cur: seq<Tensor>, pending: seq<seq<Tensor>>)
    ensures Settles(WaitThen(pending, SendNow(cur)), PhaseOf(pending))
  {
    FollowHead(Sent(cur), [Awaited(cur)], Idle);
    WaitFollows(pending, SendNow(cur));
  }

  lemma {:induction false} StepsFollow(ps: seq<Tensor>, cur: seq<Tensor>, pending: seq<seq<Tensor>>, limit: int,
                                       fail: nat)
    ensures Settles(Steps(ps, cur, pending, limit, fail), PhaseOf(pending))
    decreases |ps|
  {
    if ps == [] {
      LastFollows(cur, pending);
    } else if fail == 0 {
      WaitFollows(pending, []);
    } else if Overflows(cur, ps[0], limit) {
      StepsFollow(ps[1..], [ps[0]], [cur], limit, fail - 1);
      OverflowFollows(ps[0], cur, pending, Steps(ps[1..], [ps[0]], [cur], limit, fail - 1));
    } else {
      StepsFollow(ps[1..], cur + [ps[0]], pending, limit, fail - 1);
      GatherFollows(ps[0], pending, Steps(ps[1..], cur + [ps[0]], pending, limit, fail - 1));
    }
  }

  /** At most one bucket is in flight, every bucket is awaited once before the next is sent, and all of it
  happens between pause and continue. A failed gather leaves nothing in flight, and generation paused. */
  lemma UpdateFollowsProtocol(ps: seq<Tensor>, limit: int, fail: nat)
    ensures Follow(Update(true, ps, limit, fail), Outside) == if fail < |ps| then Idle else Outside
  {
    var steps, end := Steps(ps, [], [], limit, fail), if fail < |ps| then [] else [Continued];
    StepsFollow(ps, [], [], limit, fail);
    FollowAppend([Paused] + steps, end, Outside);
    FollowHead(Paused, steps, Outside);
  }

  lemma {:induction false} FollowAppend(a: seq<Event>, b: seq<Event>, p: Phase)
    ensures Follow(a + b, p) == Follow(b, Follow(a, p))
  {
    if a == [] {
      assert a + b == b;
    } else {
      assert (a + b)[1..] == a[1..] + b;
      FollowAppend(a[1..], b, Step(p, a[0]));
    }
  }

  // ---------------------------------------------------------------- what is sent and gathered

  function Buckets(es: seq<Event>): seq<seq<Tensor>> {
    if es == [] then [] else (if es[0].Sent? then [es[0].tensors] else []) + Buckets(es[1..])
  }

  lemma {:induction false} BucketsAppend(a: seq<Event>, b: seq<Event>)
    ensures Buckets(a + b) == Buckets(a) + Buckets(b)
  {
    if a == [] {
      assert a + b == b;
    } else {
      assert a + b == [a[0]] + (a[1..] + b) && a == [a[0]] + a[1..];
      Head(a[0], a[1..] + b);
      Head(a[0], a[1..]);
      BucketsAppend(a[1..], b);
    }
  }

  function Materialised(es: seq<Event>): seq<Tensor> {
    if es == [] then [] else (if es[0].Gathered? then [es[0].tensor] else []) + Materialised(es[1..])
  }

  lemma {:induction false} MaterialisedAppend(a: seq<Event>, b: seq<Event>)
    ensures Materialised(a + b) == Materialised(a) + Materialised(b)
  {
    if a == [] {
      assert a + b == b;
    } else {
      assert a + b == [a[0]] + (a[1..] + b) && a == [a[0]] + a[1..];
      Head(a[0], a[1..] + b);
      Head(a[0], a[1..]);
      MaterialisedAppend(a[1..], b);
    }
  }

  /** The buckets and the tensors of a trace with one more event in front. */
  lemma Head(e: Event, rest: seq<Event>)
    ensures Buckets([e] + rest) == (if e.Sent? then [e.tensors] else []) + Buckets(rest)
    ensures Materialised([e] + rest) == (if e.Gathered? then [e.tensor] else []) + Materialised(rest)
  {
    assert ([e] + rest)[1..] == rest;
  }

  lemma WaitIsSilent(pending: seq<seq<Tensor>>, rest: seq<Event>)
    ensures Buckets(WaitThen(pending, rest)) == Buckets(rest)
            && Materialised(WaitThen(pending, rest)) == Materialised(rest)
  {
    if pending != [] {
      Head(Awaited(pending[0]), rest);
    }
  }

  lemma SendsAndGathers(t: Tensor, cur: seq<Tensor>, pending: seq<seq<Tensor>>, rest: seq<Event>)
    ensures var es := [Gathered(t)] + WaitThen(pending, [Sent(cur)] + rest);
            Buckets(es) == [cur] + Buckets(rest) && Materialised(es) == [t] + Materialised(rest)
  {
    SendsOnly(cur, rest);
    WaitIsSilent(pending, [Sent(cur)] + rest);
    GathersOnly(t, WaitThen(pending, [Sent(cur)] + rest));
  }

  lemma SendsOnly(cur: seq<Tensor>, rest: seq<Event>)
    ensures Buckets([Sent(cur)] + rest) == [cur] + Buckets(rest)
    ensures Materialised([Sent(cur)] + rest) == Materialised(rest)
  {
    Head(Sent(cur), rest);
  }

  lemma GathersOnly(t: Tensor, rest: seq<Event>)
    ensures Buckets([Gathered(t)] + rest) == Buckets(rest)
    ensures Materialised([Gathered(t)] + rest) == [t] + Materialised(rest)
  {
    Head(Gathered(t), rest);
  }

  lemma LastSend(cur: seq<Tensor>, pending: seq<seq<Tensor>>)
    ensures Buckets(WaitThen(pending, SendNow(cur))) == Cut([], cur, 0)
    ensures Materialised(WaitThen(pending, SendNow(cur))) == []
  {
    WaitIsSilent(pending, SendNow(cur));
    Head(Sent(cur), [Awaited(cur)]);
  }

  lemma {:induction false} StepsSend(ps: seq<Tensor>, cur: seq<Tensor>, pending: seq<seq<Tensor>>, limit: int,
                                     fail: nat)
    ensures Buckets(Steps(ps, cur, pending, limit, fail)) <= Cut(ps, cur, limit)
    ensures |ps| <= fail ==> Buckets(Steps(ps, cur, pending, limit, fail)) == Cut(ps, cur, limit)
    decreases |ps|
  {
    if ps == [] {
      LastSend(cur, pending);
    } else if fail == 0 {
      WaitIsSilent(pending, []);
    } else if Overflows(cur, ps[0], limit) {
      StepsSend(ps[1..], [ps[0]], [cur], limit, fail - 1);
      SendsAndGathers(ps[0], cur, pending, Steps(ps[1..], [ps[0]], [cur], limit, fail - 1));
    } else {
      StepsSend(ps[1..], cur + [ps[0]], pending, limit, fail - 1);
      GathersOnly(ps[0], Steps(ps[1..], cur + [ps[0]], pending, limit, fail - 1));
    }
  }

  /** The buckets sent are the greedy cut of the parameters, or its beginning if a gather fails. */
  lemma UpdateSendsTheCut(ps: seq<Tensor>, limit: int, fail: nat)
    ensures Buckets(Update(true, ps, limit, fail)) <= Cut(ps, [], limit)
    ensures |ps| <= fail ==> Buckets(Update(true, ps, limit, fail)) == Cut(ps, [], limit)
  {
    var steps, end := Steps(ps, [], [], limit, fail), if fail < |ps| then [] else [Continued];
    StepsSend(ps, [], [], limit, fail);
    BucketsAppend([Paused] + steps, end);
    BucketsAppend([Paused], steps);
  }

  /** The parameters that are gathered before the failing one. */
  function Read(ps: seq<Tensor>, fail: nat): seq<Tensor> {
    if ps == [] || fail == 0 then [] else [ps[0]] + Read(ps[1..], fail - 1)
  }

  lemma {:induction false} ReadIsPrefix(ps: seq<Tensor>, fail: nat)
    ensures Read(ps, fail) == ps[..if fail < |ps| then fail else |ps|]
    decreases |ps|
  {
    if ps == [] || fail == 0 {
    } else {
      ReadIsPrefix(ps[1..], fail - 1);
    }
  }

  predicate Reads(es: seq<Event>, ts: seq<Tensor>) { Materialised(es) == ts }

  lemma ReadsOne(t: Tensor, rest: seq<Event>, ts: seq<Tensor>)
    requires Reads(rest, ts)
    ensures Reads([Gathered(t)] + rest, [t] + ts)
  {
    GathersOnly(t, rest);
  }

  lemma ReadsOneAndSends(t: Tensor, cur: seq<Tensor>, pending: seq<seq<Tensor>>, rest: seq<Event>, ts: seq<Tensor>)
    requires Reads(rest, ts)
    ensures Reads([Gathered(t)] + WaitThen(pending, [Sent(cur)] + rest), [t] + ts)
  {
    SendsAndGathers(t, cur, pending, rest);
  }

  lemma {:induction false} GathersThese(ps: seq<Tensor>, fail: nat)
    ensures Reads(Gathers(ps, fail), Read(ps, fail))
    decreases |ps|
  {
    if ps == [] || fail == 0 {
    } else {
      GathersThese(ps[1..], fail - 1);
      ReadsOne(ps[0], Gathers(ps[1..], fail - 1), Read(ps[1..], fail - 1));
    }
  }

  lemma {:induction false} StepsGather(ps: seq<Tensor>, cur: seq<Tensor>, pending: seq<seq<Tensor>>, limit: int,
                                       fail: nat)
    ensures Reads(Steps(ps, cur, pending, limit, fail), Read(ps, fail))
    decreases |ps|
  {
    if ps == [] {
      LastSend(cur, pending);
    } else if fail == 0 {
      WaitIsSilent(pending, []);
    } else if Overflows(cur, ps[0], limit) {
      StepsGather(ps[1..], [ps[0]], [cur], limit, fail - 1);
      ReadsOneAndSends(ps[0], cur, pending, Steps(ps[1..], [ps[0]], [cur], limit, fail - 1), Read(ps[1..], fail - 1));
    } else {
      StepsGather(ps[1..], cur + [ps[0]], pending, limit, fail - 1);
      ReadsOne(ps[0], Steps(ps[1..], cur + [ps[0]], pending, limit, fail - 1), Read(ps[1..], fail - 1));
    }
  }

  /** Gathering is collective: whatever rank 0 does with its buckets, every rank gathers the same tensors in
  the same order. */
  lemma RanksGatherAlike(main: bool, ps: seq<Tensor>, limit: int, fail: nat)
    ensures Materialised(Update(main, ps, limit, fail)) == ps[..if fail < |ps| then fail else |ps|]
  {
    ReadIsPrefix(ps, fail);
    if main {
      var steps, end := Steps(ps, [], [], limit, fail), if fail < |ps| then [] else [Continued];
      StepsGather(ps, [], [], limit, fail);
      MaterialisedAppend([Paused] + steps, end);
      MaterialisedAppend([Paused], steps);
    } else {
      GathersThese(ps, fail);
    }
  }

  // ---------------------------------------------------------------- memory

  /** The bytes that an event adds to the gathered tensors that the open list or a bucket in flight holds. */
  function Delta(e: Event): int {
    match e
    case Gathered(t) => t.size
    case Awaited(ts) => 0 - Total(ts)
    case _ => 0
  }

  function Live(es: seq<Event>): int { if es == [] then 0 else Delta(es[0]) + Live(es[1..]) }

  lemma {:induction false} LiveAppend(a: seq<Event>, b: seq<Event>)
    ensures Live(a + b) == Live(a) + Live(b)
  {
    if a == [] {
      assert a + b == b;
    } else {
      assert (a + b)[1..] == a[1..] + b;
      LiveAppend(a[1..], b);
    }
  }

  /** Starting from `used` bytes, `es` stays between 0 and `bound`. */
  predicate Within(es: seq<Event>, used: int, bound: int) {
    0 <= used <= bound && (es == [] || Within(es[1..], used + Delta(es[0]), bound))
  }

  lemma {:induction false} WithinAppend(a: seq<Event>, b: seq<Event>, used: int, bound: int)
    requires Within(a, used, bound) && Within(b, used + Live(a), bound)
    ensures Within(a + b, used, bound)
  {
    if a == [] {
      assert a + b == b;
    } else {
      assert (a + b)[1..] == a[1..] + b;
      WithinAppend(a[1..], b, used + Delta(a[0]), bound);
    }
  }

  lemma {:induction false} WithinAtEveryPoint(es: seq<Event>, used: int, bound: int, n: nat)
    requires Within(es, used, bound) && n <= |es|
    ensures 0 <= used + Live(es[..n]) <= bound
  {
    if n == 0 {
    } else {
      WithinAtEveryPoint(es[1..], used + Delta(es[0]), bound, n - 1);
      assert es[..n][1..] == es[1..][..n - 1];
    }
  }

  function Bytes(pending: seq<seq<Tensor>>): nat { if pending == [] then 0 else Total(pending[0]) }

  /** `es` never exceeds the bound when the open bucket and the bucket in flight hold `used` bytes at its
  start, and releases them all if it runs to its end. */
  predicate Bounded(es: seq<Event>, used: int, bound: int, complete: bool) {
    Within(es, used, bound) && (complete ==> Live(es) + used == 0)
  }

  lemma BoundedHead(e: Event, rest: seq<Event>, used: int, bound: int, complete: bool)
    requires 0 <= used <= bound && Bounded(rest, used + Delta(e), bound, complete)
    ensures Bounded([e] + rest, used, bound, complete)
  {
    assert ([e] + rest)[1..] == rest;
  }

  lemma WaitReleases(pending: seq<seq<Tensor>>, rest: seq<Event>, used: int, bound: int, complete: bool)
    requires Bytes(pending) <= used <= bound && Bounded(rest, used - Bytes(pending), bound, complete)
    ensures Bounded(WaitThen(pending, rest), used, bound, complete)
  {
    if pending != [] {
      BoundedHead(Awaited(pending[0]), rest, used, bound, complete);
    }
  }

  ghost predicate NoneAbove(ps: seq<Tensor>, m: nat) { forall i :: 0 <= i < |ps| ==> ps[i].size <= m }

  lemma {:induction false} StepsWithin(ps: seq<Tensor>, cur: seq<Tensor>, pending: seq<seq<Tensor>>, limit: int,
                                       fail: nat, m: nat, c: nat, bound: int)
    requires NoneAbove(ps, m) && bound == 2 * c + m
    requires m <= c && limit <= c && Total(cur) <= c && Bytes(pending) <= c
    ensures Bounded(Steps(ps, cur, pending, limit, fail), Total(cur) + Bytes(pending), bound, |ps| <= fail)
    decreases |ps|
  {
    if ps == [] {
      LastWithin(cur, pending, bound);
    } else if fail == 0 {
      StoppedWithin(ps, cur, pending, limit, bound);
    } else {
      NextFits(ps, cur, limit, m, c);
      if Overflows(cur, ps[0], limit) {
        StepsWithin(ps[1..], [ps[0]], [cur], limit, fail - 1, m, c, bound);
        OverflowWithin(ps, cur, pending, limit, fail, bound);
      } else {
        StepsWithin(ps[1..], cur + [ps[0]], pending, limit, fail - 1, m, c, bound);
        RoomWithin(ps, cur, pending, limit, fail, bound);
      }
    }
  }

  lemma NextFits(ps: seq<Tensor>, cur: seq<Tensor>, limit: int, m: nat, c: nat)
    requires ps != [] && NoneAbove(ps, m) && m <= c && limit <= c && Total(cur) <= c
    ensures ps[0].size <= m && NoneAbove(ps[1..], m)
    ensures Total([ps[0]]) == ps[0].size && Bytes([cur]) == Total(cur)
    ensures Total(cur + [ps[0]]) == Total(cur) + ps[0].size
    ensures !Overflows(cur, ps[0], limit) ==> Total(cur + [ps[0]]) <= c
  {
    OneMoreTensor([], ps[0]);
    OneMoreTensor(cur, ps[0]);
  }

  lemma StoppedWithin(ps: seq<Tensor>, cur: seq<Tensor>, pending: seq<seq<Tensor>>, limit: int, bound: int)
    requires ps != [] && Total(cur) + Bytes(pending) <= bound
    ensures Bounded(Steps(ps, cur, pending, limit, 0), Total(cur) + Bytes(pending), bound, false)
  {
    WaitReleases(pending, [], Total(cur) + Bytes(pending), bound, false);
  }

  lemma OverflowWithin(ps: seq<Tensor>, cur: seq<Tensor>, pending: seq<seq<Tensor>>, limit: int, fail: nat,
                       bound: int)
    requires ps != [] && fail > 0 && Overflows(cur, ps[0], limit)
    requires Total(cur) + Bytes(pending) + ps[0].size <= bound
    requires Bounded(Steps(ps[1..], [ps[0]], [cur], limit, fail - 1), ps[0].size + Total(cur), bound, |ps| <= fail)
    ensures Bounded(Steps(ps, cur, pending, limit, fail), Total(cur) + Bytes(pending), bound, |ps| <= fail)
  {
    AfterOverflow(ps[0], cur, pending, Steps(ps[1..], [ps[0]], [cur], limit, fail - 1), bound, |ps| <= fail);
  }

  lemma RoomWithin(ps: seq<Tensor>, cur: seq<Tensor>, pending: seq<seq<Tensor>>, limit: int, fail: nat, bound: int)
    requires ps != [] && fail > 0 && !Overflows(cur, ps[0], limit)
    requires Total(cur) + Bytes(pending) <= bound
    requires Bounded(Steps(ps[1..], cur + [ps[0]], pending, limit, fail - 1),
                     Total(cur) + Bytes(pending) + ps[0].size, bound, |ps| <= fail)
    ensures Bounded(Steps(ps, cur, pending, limit, fail), Total(cur) + Bytes(pending), bound, |ps| <= fail)
  {
    assert Steps(ps, cur, pending, limit, fail)
        == [Gathered(ps[0])] + Steps(ps[1..], cur + [ps[0]], pending, limit, fail - 1);
    assert Delta(Gathered(ps[0])) == ps[0].size;
    BoundedHead(Gathered(ps[0]), Steps(ps[1..], cur + [ps[0]], pending, limit, fail - 1),
                Total(cur) + Bytes(pending), bound, |ps| <= fail);
  }

  lemma LastWithin(cur: seq<Tensor>, pending: seq<seq<Tensor>>, bound: int)
    requires Total(cur) + Bytes(pending) <= bound
    ensures Bounded(WaitThen(pending, SendNow(cur)), Total(cur) + Bytes(pending), bound, true)
  {
    assert Bounded([], 0, bound, true);
    BoundedHead(Awaited(cur), [], Total(cur), bound, true);
    assert [Awaited(cur)] + [] == [Awaited(cur)];
    BoundedHead(Sent(cur), [Awaited(cur)], Total(cur), bound, true);
    WaitReleases(pending, SendNow(cur), Total(cur) + Bytes(pending), bound, true);
  }

  lemma AfterOverflow(t: Tensor, cur: seq<Tensor>, pending: seq<seq<Tensor>>, rest: seq<Event>, bound: int,
                      complete: bool)
    requires Total(cur) + Bytes(pending) + t.size <= bound
    requires Bounded(rest, Total(cur) + t.size, bound, complete)
    ensures Bounded([Gathered(t)] + WaitThen(pending, [Sent(cur)] + rest), Total(cur) + Bytes(pending), bound, complete)
  {
    BoundedHead(Sent(cur), rest, Total(cur) + t.size, bound, complete);
    WaitReleases(pending, [Sent(cur)] + rest, Total(cur) + Bytes(pending) + t.size, bound, complete);
    BoundedHead(Gathered(t), WaitThen(pending, [Sent(cur)] + rest), Total(cur) + Bytes(pending), bound, complete);
  }

  /** When no tensor exceeds `m` bytes, the gathered tensors in the open list and in flight never exceed two
  buckets and one tensor, and both are empty after an update without failure. */
  lemma LiveBytesAreBounded(ps: seq<Tensor>, limit: nat, fail: nat, m: nat, n: nat)
    requires NoneAbove(ps, m) && n <= |Update(true, ps, limit, fail)|
    ensures 0 <= Live(Update(true, ps, limit, fail)[..n]) <= 2 * Max(limit, m) + m
    ensures |ps| <= fail ==> Live(Update(true, ps, limit, fail)) == 0
  {
    var steps, bound := Steps(ps, [], [], limit, fail), 2 * Max(limit, m) + m;
    var end := if fail < |ps| then [] else [Continued];
    StepsWithin(ps, [], [], limit, fail, m, Max(limit, m), bound);
    WithinAppend([Paused], steps, 0, bound);
    LiveAppend([Paused], steps);
    assert steps[..|steps|] == steps;
    WithinAtEveryPoint(steps, 0, bound, |steps|);
    WithinAppend([Paused] + steps, end, 0, bound);
    LiveAppend([Paused] + steps, end);
    WithinAtEveryPoint(Update(true, ps, limit, fail), 0, bound, n);
  }

  /** Three tensors that fill a bucket each reach the bound. */
  lemma TheBoundIsReached(limit: nat, t: Tensor)
    requires t.size == limit > 0
    ensures var es := Update(true, [t, t, t], limit, 3); |es| > 5 && Live(es[..5]) == 2 * limit + limit
  {
    var g := Gathered(t);
    OneMoreTensor([], t);
    var third := Steps([t], [t], [[t]], limit, 1);
    assert third[0] == g;
    assert [t, t][1..] == [t] && [t, t, t][1..] == [t, t] && [] + [t] == [t];
    assert Steps([t, t], [t], [], limit, 2) == [g, Sent([t])] + third;
    assert Steps([t, t, t], [], [], limit, 3) == [g] + Steps([t, t], [t], [], limit, 2);
    assert Update(true, [t, t, t], limit, 3)[..5] == [Paused, g] + [g, Sent([t])] + [g];
    LiveAppend([Paused, g] + [g, Sent([t])], [g]);
    LiveAppend([Paused, g], [g, Sent([t])]);
    LiveAppend([Paused], [g]);
    LiveAppend([g], [Sent([t])]);
    assert [Paused] + [g] == [Paused, g] && [g] + [Sent([t])] == [g, Sent([t])];
  }

  // ---------------------------------------------------------------- the Megatron loops

  predicate IsExpert(t: Tensor) { Contains(t.name, ".experts.") }

  predicate Contains(s: string, part: string) { exists i :: 0 <= i <= |s| && part <= s[i..] }

  /** The parameters that one of the two passes handles, in order. */
  function Select(ps: seq<Tensor>, expert: bool): seq<Tensor> {
    if ps == [] then []
    else (if IsExpert(ps[0]) == expert then [ps[0]] else []) + Select(ps[1..], expert)
  }

  class MegatronEngine {
    var sent: seq<seq<Tensor>>

    constructor ()
      ensures sent == []
    {
      sent := [];
    }

    /** Sends a bucket, waits for it and clears the list; nothing happens for an empty list. */
    method SendBucket(list: TensorList)
      modifies this, list
      ensures list.items == [] && sent == old(sent) + Nonempty(old(list.items))
    {
      if list.items == [] { return; }
      sent := sent + [list.items];
      list.items := [];
    }

    /** Appends a tensor, to an emptied list if `flush`. */
    method Append(t: Tensor, list: TensorList, bufferSize: nat, flush: bool) returns (bufferSize': nat)
      requires bufferSize == Total(list.items)
      modifies this, list
      ensures bufferSize' == Total(list.items)
      ensures sent == if flush then old(sent) + Nonempty(old(list.items)) else old(sent)
      ensures list.items == if flush then [t] else old(list.items) + [t]
    {
      bufferSize' := bufferSize;
      if flush {
        SendBucket(list);
        bufferSize' := 0;
      }
      ghost var items := list.items;
      assert items == if flush then [] else old(list.items);
      assert bufferSize' == Total(items);
      OneMoreTensor(items, t);
      list.items := list.items + [t];
      assert list.items == items + [t];
      bufferSize' := bufferSize' + t.size;
    }

    method AddTensor(t: Tensor, list: TensorList, bufferSize: nat, limit: int, copies: nat) returns (bufferSize': nat)
      requires bufferSize == Total(list.items)
      modifies this, list
      ensures bufferSize' == Total(list.items)
      ensures if OverLimit(Total(old(list.items)), t.size, limit, copies)
              then sent == old(sent) + Nonempty(old(list.items)) && list.items == [t]
              else sent == old(sent) && list.items == old(list.items) + [t]
    {
      bufferSize' := Append(t, list, bufferSize, OverLimit(bufferSize, t.size, limit, copies));
    }

    /** One pass over the parameters that are experts, or that are not. */
    method Pass(ps: seq<Tensor>, expert: bool, limit: int, copies: nat)
      modifies this
      ensures sent == old(sent) + MegatronCut(Select(ps, expert), [], limit, copies)
    {
      var list := new TensorList();
      var bufferSize: nat := 0;
      for n := 0 to |ps|
        invariant fresh(list) && bufferSize == Total(list.items)
        invariant sent + MegatronCut(Select(ps[n..], expert), list.items, limit, copies)
               == old(sent) + MegatronCut(Select(ps, expert), [], limit, copies)
      {
        NextBucket(sent, ps, n, expert, list.items, limit, copies);
        if IsExpert(ps[n]) == expert {
          bufferSize := AddTensor(ps[n], list, bufferSize, limit, copies);
        }
      }
      SendBucket(list);
    }

    /** Dense parameters first; then the experts, whose buckets are gathered from `ep` ranks. */
    method UpdateWeights(ps: seq<Tensor>, limit: int, ep: nat)
      modifies this
      ensures sent == old(sent) + MegatronCut(Select(ps, false), [], limit, 1)
                      + MegatronCut(Select(ps, true), [], limit, ep)
    {
      Pass(ps, false, limit, 1);
      Pass(ps, true, limit, ep);
    }
  }

  lemma NextBucket(sent: seq<seq<Tensor>>, ps: seq<Tensor>, n: nat, expert: bool, cur: seq<Tensor>, limit: int,
                   copies: nat)
    requires n < |ps|
    ensures var rest := Select(ps[n + 1..], expert);
            sent + MegatronCut(Select(ps[n..], expert), cur, limit, copies) ==
            if IsExpert(ps[n]) != expert then sent + MegatronCut(rest, cur, limit, copies)
            else if OverLimit(Total(cur), ps[n].size, limit, copies)
            then sent + Nonempty(cur) + MegatronCut(rest, [ps[n]], limit, copies)
            else sent + MegatronCut(rest, cur + [ps[n]], limit, copies)
  {
    assert ps[n..][1..] == ps[n + 1..];
    var chosen, rest := Select(ps[n..], expert), Select(ps[n + 1..], expert);
    if IsExpert(ps[n]) == expert {
      assert chosen[0] == ps[n] && chosen[1..] == rest;
    } else {
      assert chosen == [] + rest == rest;
    }
  }

  lemma {:induction false} SelectParts(ps: seq<Tensor>)
    ensures multiset(Select(ps, false)) + multiset(Select(ps, true)) == multiset(ps)
  {
    if ps == [] {
    } else {
      SelectParts(ps[1..]);
      assert ps == [ps[0]] + ps[1..];
    }
  }

  /** The two Megatron passes send every parameter exactly once. */
  lemma MegatronSendsAll(ps: seq<Tensor>, limit: int, ep: nat)
    ensures multiset(Flatten(MegatronCut(Select(ps, false), [], limit, 1)
                             + MegatronCut(Select(ps, true), [], limit, ep)))
         == multiset(ps)
  {
    var dense, experts := Select(ps, false), Select(ps, true);
    MegatronIsComplete(dense, [], limit, 1);
    MegatronIsComplete(experts, [], limit, ep);
    FlattenAppend(MegatronCut(dense, [], limit, 1), MegatronCut(experts, [], limit, ep));
    SelectParts(ps);
  }
}
