/** Interruptible generation, `RemoteInfEngine.agenerate` (areal/infra/remote_inf_engine.py). The
inference server and the weight version are parameters: `server` answers the k-th request of a call
with a chunk of tokens and a stop reason, `version` is what `get_version()` returns after it. */
module Generation {
  import opened Routing

  datatype StopReason = Stop | ToolCalls | Length | Abort

  datatype Chunk = Chunk(tokens: seq<int>, logprobs: seq<real>, stop: StopReason)

  /** What the k-th attempt gets for a prompt and a budget. */
  type Server = (nat, seq<int>, int) -> Chunk

  datatype ModelRequest = ModelRequest(rid: Rid, inputIds: seq<int>, nSamples: int, maxTokens: int, maxNewTokens: int)

  datatype ModelResponse = ModelResponse(inputTokens: seq<int>, outputTokens: seq<int>, outputLogprobs: seq<real>,
                                         outputVersions: seq<int>, stop: StopReason)

  datatype Outcome =
    | Generated(response: ModelResponse)
    | ManySamples                           // ValueError: n_samples != 1
    | NoBudget(maxNewTokens: int)           // RuntimeError: nothing left to generate
    | Overrun                               // AssertionError: the server exceeded the budget
    | StillAborting                         // every attempt so far was aborted

  // ---------------------------------------------------------------- specification

  datatype Accumulated = Accumulated(tokens: seq<int>, logprobs: seq<real>, versions: seq<int>) {
    function Plus(c: Chunk, version: int): Accumulated {
      Accumulated(tokens + c.tokens, logprobs + c.logprobs, versions + Repeat(version, |c.tokens|))
    }
  }

  function Repeat(v: int, n: nat): (s: seq<int>)
    ensures |s| == n && forall i :: 0 <= i < n ==> s[i] == v
  {
    if n == 0 then [] else Repeat(v, n - 1) + [v]
  }

  /** The loop from attempt `k` on, with `patience` attempts left. */
  function Continue(server: Server, version: nat -> int, k: nat, patience: nat,
                    prompt: seq<int>, acc: Accumulated, budget: int): Outcome
    decreases patience
  {
    if patience == 0 then StillAborting
    else
      var c := server(k, prompt + acc.tokens, budget);
      var acc' := acc.Plus(c, version(k));
      var budget' := budget - |c.tokens|;
      if budget' < 0 then Overrun
      else if c.stop.Abort? && budget' > 0 then
        Continue(server, version, k + 1, patience - 1, prompt, acc', budget')
      else
        Generated(ModelResponse(prompt, acc'.tokens, acc'.logprobs, acc'.versions,
                                if c.stop.Abort? then Length else c.stop))
  }

  /** The most that fits both limits. */
  function Budget(req: ModelRequest): (b: int)
    ensures b <= req.maxNewTokens && |req.inputIds| + b <= req.maxTokens
    ensures b == req.maxNewTokens || |req.inputIds| + b == req.maxTokens
  {
    var room := req.maxTokens - |req.inputIds|;
    if room < req.maxNewTokens then room else req.maxNewTokens
  }

  function Generate(server: Server, version: nat -> int, patience: nat, req: ModelRequest): Outcome {
    if req.nSamples != 1 then ManySamples
    else if Budget(req) <= 0 then NoBudget(Budget(req))
    else Continue(server, version, 0, patience, req.inputIds, Accumulated([], [], []), Budget(req))
  }

  // ---------------------------------------------------------------- the engine

  class RemoteInfEngine {
    const addresses: seq<string>
    var ridQueue: seq<Rid>
    var ridToAddress: map<Rid, nat>         // indices into `addresses`
    var serverIdx: nat

    ghost predicate Valid()
      reads this
    {
      && serverIdx < |addresses|
      && Distinct(ridQueue)
      && (forall rid :: rid in ridToAddress ==> ridToAddress[rid] < |addresses|)
      && (forall rid :: rid in ridToAddress <==> rid in ridQueue)
    }

    function View(): Router
      reads this
    {
      Router(ridQueue, ridToAddress, serverIdx)
    }

    constructor (addresses: seq<string>, start: nat)
      requires start < |addresses|
      ensures Valid() && this.addresses == addresses && View() == Router([], EMPTY_CACHE, start)
    {
      this.addresses := addresses;
      ridQueue, ridToAddress, serverIdx := [], map[], start;
    }

    method ChooseServer() returns (server: nat)
      requires Valid()
      modifies `serverIdx
      ensures Valid() && server == old(serverIdx) && serverIdx == (old(serverIdx) + 1) % |addresses|
    {
      server := serverIdx;
      serverIdx := (serverIdx + 1) % |addresses|;
    }

    /** The server of request `rid`: the cached one, or the next in turn. */
    method ServerFor(rid: Rid) returns (server: nat)
      requires Valid()
      modifies this
      ensures Valid() && View() == Route(|addresses|, old(View()), rid)
      ensures rid in ridToAddress && server == ridToAddress[rid] && server < |addresses|
    {
      if rid in ridToAddress {
        return ridToAddress[rid];
      }
      server := ChooseServer();
      if |ridQueue| >= RID_CACHE_SIZE {
        EvictionKeepsKeys(ridQueue);
        var oldest := ridQueue[0];
        ridQueue := ridQueue[1..];
        ridToAddress := ridToAddress - {oldest};
      }
      ridToAddress := ridToAddress[rid := server];
      ridQueue := ridQueue + [rid];
    }

    /** One call. `replies[j]` is the server at address j, `version(k)` the weight version read after
    attempt k, and the caller is willing to see `patience` attempts. */
    method AGenerate(req: ModelRequest, replies: seq<Server>, version: nat -> int, patience: nat) returns (out: Outcome)
      requires Valid() && |replies| == |addresses|
      modifies this
      ensures Valid()
      ensures req.nSamples != 1 || Budget(req) <= 0 ==> View() == old(View())
      ensures req.nSamples == 1 && Budget(req) > 0 ==>
        && View() == Route(|addresses|, old(View()), req.rid)
        && req.rid in ridToAddress && ridToAddress[req.rid] < |replies|
        && out == Generate(replies[ridToAddress[req.rid]], version, patience, req)
        && (out.Generated? ==> exists cs ::
              IsRecordOf(replies[ridToAddress[req.rid]], version, req.inputIds, Budget(req), cs, out.response))
      ensures req.nSamples != 1 ==> out == ManySamples
      ensures req.nSamples == 1 && Budget(req) <= 0 ==> out == NoBudget(Budget(req))
    {
      if req.nSamples != 1 {
        return ManySamples;
      }
      var room := req.maxTokens - |req.inputIds|;
      var maxNewTokens := if room < req.maxNewTokens then room else req.maxNewTokens;
      if maxNewTokens <= 0 {
        return NoBudget(maxNewTokens);
      }
      var server := ServerFor(req.rid);
      out := GenerateLoop(replies[server], version, patience, req.inputIds, maxNewTokens);
      TokensCarryTheirVersion(replies[server], version, patience, req);
    }

    /** The loop resumes an aborted generation from everything generated so far, with what is left of
    the budget. */
    static method GenerateLoop(server: Server, version: nat -> int, patience: nat, prompt: seq<int>, budget: int)
      returns (out: Outcome)
      requires budget > 0
      ensures out == Continue(server, version, 0, patience, prompt, Accumulated([], [], []), budget)
    {
      var inputIds, maxNewTokens := prompt, budget;
      var tokens: seq<int>, logprobs: seq<real>, versions: seq<int> := [], [], [];
      var stop: StopReason := Abort;        // `stop_reason` is None before the first reply
      var k := 0;
      while stop == Abort && |tokens| < budget
        invariant k <= patience && inputIds == prompt + tokens && maxNewTokens == budget - |tokens|
        invariant maxNewTokens >= 0
        invariant Continue(server, version, 0, patience, prompt, Accumulated([], [], []), budget)
               == if stop == Abort && maxNewTokens > 0
                  then Continue(server, version, k, patience - k, prompt, Accumulated(tokens, logprobs, versions),
                                maxNewTokens)
                  else Generated(ModelResponse(prompt, tokens, logprobs, versions,
                                               if stop == Abort then Length else stop))
        decreases patience - k
      {
        if k == patience {
          return StillAborting;
        }
        var reply := server(k, inputIds, maxNewTokens);
        stop := reply.stop;
        tokens := tokens + reply.tokens;
        logprobs := logprobs + reply.logprobs;
        versions := versions + Repeat(version(k), |reply.tokens|);
        inputIds := inputIds + reply.tokens;
        maxNewTokens := maxNewTokens - |reply.tokens|;
        if maxNewTokens < 0 {
          return Overrun;
        }
        k := k + 1;
      }
      if stop == Abort {
        stop := Length;
      }
      assert inputIds[..|inputIds| - |tokens|] == prompt;
      out := Generated(ModelResponse(inputIds[..|inputIds| - |tokens|], tokens, logprobs, versions, stop));
    }
  }

  lemma EvictionKeepsKeys(queue: seq<Rid>)
    requires Distinct(queue) && queue != []
    ensures Distinct(queue[1..])
    ensures forall rid :: rid in queue[1..] <==> rid in queue && rid != queue[0]
  {
    forall rid ensures rid in queue[1..] <==> rid in queue && rid != queue[0] {
      assert queue == [queue[0]] + queue[1..];
      if rid in queue[1..] {
        var i :| 0 <= i < |queue[1..]| && queue[1..][i] == rid;
        assert queue[i + 1] == rid;
      }
    }
  }

  // ---------------------------------------------------------------- what any server gets

  /** As many log-probabilities as tokens. */
  ghost predicate Aligned(server: Server) {
    forall k, ctx, b :: |server(k, ctx, b).tokens| == |server(k, ctx, b).logprobs|
  }

  ghost predicate Nondecreasing(s: seq<int>) { forall i, j :: 0 <= i <= j < |s| ==> s[i] <= s[j] }

  ghost predicate Monotone(version: nat -> int) { forall i: nat, j: nat :: i <= j ==> version(i) <= version(j) }

  /** Every attempt so far read a version of at most `v`. */
  ghost predicate Consistent(acc: Accumulated, v: int) {
    && |acc.logprobs| == |acc.tokens| == |acc.versions|
    && Nondecreasing(acc.versions)
    && (forall x :: x in acc.versions ==> x <= v)
  }

  lemma PlusIsConsistent(acc: Accumulated, c: Chunk, v: int, w: int)
    requires Consistent(acc, v) && |c.tokens| == |c.logprobs| && v <= w
    ensures Consistent(acc.Plus(c, v), w)
  {
    var old', new' := acc.versions, Repeat(v, |c.tokens|);
    forall i, j | 0 <= i <= j < |old' + new'| ensures (old' + new')[i] <= (old' + new')[j] {
      if i < |old'| <= j {
        assert old'[i] in acc.versions;
      }
    }
  }

  lemma {:induction false} ContinueIsConsistent(server: Server, version: nat -> int, k: nat, patience: nat,
                                                prompt: seq<int>, acc: Accumulated, budget: int)
    requires Aligned(server) && Monotone(version) && Consistent(acc, version(k))
    ensures var out := Continue(server, version, k, patience, prompt, acc, budget);
            out.Generated? ==>
              && out.response.inputTokens == prompt
              && |out.response.outputTokens| == |out.response.outputLogprobs| == |out.response.outputVersions|
              && Nondecreasing(out.response.outputVersions)
              && |out.response.outputTokens| <= |acc.tokens| + budget
              && !out.response.stop.Abort?
    decreases patience
  {
    if patience == 0 {
    } else {
      var c := server(k, prompt + acc.tokens, budget);
      var acc' := acc.Plus(c, version(k));
      assert version(k) <= version(k + 1);
      PlusIsConsistent(acc, c, version(k), version(k + 1));
      ContinueIsConsistent(server, version, k + 1, patience - 1, prompt, acc', budget - |c.tokens|);
    }
  }

  /** Whatever the server does: the original prompt comes back, the three output lists have equal length,
  versions never go down, the output stays within the budget, and the reason is never `abort`. */
  lemma ResponseIsWellFormed(server: Server, version: nat -> int, patience: nat, req: ModelRequest)
    requires Aligned(server) && Monotone(version)
    ensures var out := Generate(server, version, patience, req);
            out.Generated? ==>
              && out.response.inputTokens == req.inputIds
              && |out.response.outputTokens| == |out.response.outputLogprobs| == |out.response.outputVersions|
              && Nondecreasing(out.response.outputVersions)
              && |out.response.outputTokens| <= req.maxNewTokens
              && |req.inputIds| + |out.response.outputTokens| <= req.maxTokens
              && !out.response.stop.Abort?
  {
    ContinueIsConsistent(server, version, 0, patience, req.inputIds, Accumulated([], [], []), Budget(req));
  }

  // ---------------------------------------------------------------- which attempt made which token

  /** How many tokens the first `n` replies bring. */
  function Brought(cs: seq<Chunk>, n: nat): nat
    requires n <= |cs|
  {
    if n == 0 then 0 else Brought(cs, n - 1) + |cs[n - 1].tokens|
  }

  /** Their log-probabilities. */
  function Logprobs(cs: seq<Chunk>): seq<real> {
    if cs == [] then [] else Logprobs(cs[..|cs| - 1]) + cs[|cs| - 1].logprobs
  }

  /** The tokens `output` are those of the replies `cs`, in order. Attempt `k` was sent the prompt with everything
  generated before it, and what that left of the budget. */
  ghost predicate IsHistory(server: Server, prompt: seq<int>, budget: int, cs: seq<Chunk>, output: seq<int>) {
    |output| == Brought(cs, |cs|) && forall k :: 0 <= k < |cs| ==> IsAttempt(server, prompt, budget, cs, output, k)
  }

  ghost predicate IsAttempt(server: Server, prompt: seq<int>, budget: int, cs: seq<Chunk>, output: seq<int>, k: nat)
    requires k < |cs|
  {
    var from, to := Brought(cs, k), Brought(cs, k + 1);
    && from <= to <= |output|
    && cs[k] == server(k, prompt + output[..from], budget - from)
    && output[from..to] == cs[k].tokens
  }

  /** Every token carries the version that was read after the attempt that generated it. */
  ghost predicate IsStamped(cs: seq<Chunk>, acc: Accumulated, version: nat -> int) {
    && acc.logprobs == Logprobs(cs) && |acc.versions| == |acc.tokens| == Brought(cs, |cs|)
    && forall k :: 0 <= k < |cs| ==> AttemptStamped(cs, acc.versions, version(k), k)
  }

  ghost predicate AttemptStamped(cs: seq<Chunk>, versions: seq<int>, v: int, k: nat)
    requires k < |cs|
  {
    Brought(cs, k + 1) <= |versions| && forall i :: Brought(cs, k) <= i < Brought(cs, k + 1) ==> versions[i] == v
  }

  /** Attempt `k` is aborted with some of the budget left, or it is the last. */
  ghost predicate IsInterrupted(cs: seq<Chunk>, budget: int) {
    forall k :: 0 <= k < |cs| - 1 ==> WasInterrupted(cs, budget, k)
  }

  ghost predicate WasInterrupted(cs: seq<Chunk>, budget: int, k: nat)
    requires k < |cs|
  {
    cs[k].stop.Abort? && Brought(cs, k + 1) < budget
  }

  ghost predicate AllInterrupted(cs: seq<Chunk>, budget: int) {
    forall k :: 0 <= k < |cs| ==> WasInterrupted(cs, budget, k)
  }

  lemma InterruptionsGrow(cs: seq<Chunk>, budget: int, c: Chunk)
    requires AllInterrupted(cs, budget)
    ensures IsInterrupted(cs + [c], budget)
    ensures c.stop.Abort? && Brought(cs, |cs|) + |c.tokens| < budget ==> AllInterrupted(cs + [c], budget)
  {
    forall k | 0 <= k < |cs| ensures WasInterrupted(cs + [c], budget, k) {
      assert WasInterrupted(cs, budget, k);
      BroughtByPrefix(cs, c, k + 1);
    }
    BroughtByPrefix(cs, c, |cs|);
  }

  lemma {:induction false} BroughtByPrefix(cs: seq<Chunk>, c: Chunk, n: nat)
    requires n <= |cs|
    ensures Brought(cs + [c], n) == Brought(cs, n)
  {
    if n == 0 {
    } else {
      BroughtByPrefix(cs, c, n - 1);
    }
  }

  lemma {:induction false} BroughtGrows(cs: seq<Chunk>, m: nat, n: nat)
    requires m <= n <= |cs|
    ensures Brought(cs, m) <= Brought(cs, n)
  {
    if m == n {
    } else {
      BroughtGrows(cs, m, n - 1);
    }
  }

  lemma HistoryGrows(server: Server, prompt: seq<int>, budget: int, cs: seq<Chunk>, output: seq<int>)
    requires IsHistory(server, prompt, budget, cs, output)
    ensures var c := server(|cs|, prompt + output, budget - |output|);
            IsHistory(server, prompt, budget, cs + [c], output + c.tokens)
  {
    var n := |cs|;
    var c := server(n, prompt + output, budget - |output|);
    var cs', output' := cs + [c], output + c.tokens;
    BroughtByPrefix(cs, c, n);
    forall k | 0 <= k <= n ensures IsAttempt(server, prompt, budget, cs', output', k) {
      BroughtByPrefix(cs, c, k);
      BroughtGrows(cs, k, n);
      if k < n {
        BroughtByPrefix(cs, c, k + 1);
        BroughtGrows(cs, k + 1, n);
        assert IsAttempt(server, prompt, budget, cs, output, k);
        assert output'[..Brought(cs, k)] == output[..Brought(cs, k)];
        assert output'[Brought(cs, k)..Brought(cs, k + 1)] == output[Brought(cs, k)..Brought(cs, k + 1)];
      } else {
        assert output'[..|output|] == output && output'[|output|..] == c.tokens;
      }
    }
  }

  lemma StampsGrow(cs: seq<Chunk>, acc: Accumulated, version: nat -> int, c: Chunk)
    requires IsStamped(cs, acc, version)
    ensures IsStamped(cs + [c], acc.Plus(c, version(|cs|)), version)
  {
    var n := |cs|;
    var cs', acc' := cs + [c], acc.Plus(c, version(n));
    assert cs'[..n] == cs;
    BroughtByPrefix(cs, c, n);
    forall k | 0 <= k <= n ensures AttemptStamped(cs', acc'.versions, version(k), k) {
      BroughtByPrefix(cs, c, k);
      if k < n {
        BroughtByPrefix(cs, c, k + 1);
        BroughtGrows(cs, k + 1, n);
        assert AttemptStamped(cs, acc.versions, version(k), k);
      }
    }
  }

  /** What the loop has done when it stands before attempt `|cs|`. */
  ghost predicate IsRecord(server: Server, version: nat -> int, prompt: seq<int>, budget: int, cs: seq<Chunk>,
                           acc: Accumulated) {
    IsHistory(server, prompt, budget, cs, acc.tokens) && IsStamped(cs, acc, version)
  }

  ghost predicate IsRecordOf(server: Server, version: nat -> int, prompt: seq<int>, budget: int, cs: seq<Chunk>,
                             r: ModelResponse) {
    && IsRecord(server, version, prompt, budget, cs, Accumulated(r.outputTokens, r.outputLogprobs, r.outputVersions))
    && IsInterrupted(cs, budget) && cs != []
    && (if cs[|cs| - 1].stop.Abort? then r.stop.Length? && |r.outputTokens| == budget
        else r.stop == cs[|cs| - 1].stop)
  }

  lemma RecordGrows(server: Server, version: nat -> int, prompt: seq<int>, budget: int, cs: seq<Chunk>,
                    acc: Accumulated)
    requires IsRecord(server, version, prompt, budget, cs, acc)
    ensures var c := server(|cs|, prompt + acc.tokens, budget - |acc.tokens|);
            IsRecord(server, version, prompt, budget, cs + [c], acc.Plus(c, version(|cs|)))
  {
    HistoryGrows(server, prompt, budget, cs, acc.tokens);
    StampsGrow(cs, acc, version, server(|cs|, prompt + acc.tokens, budget - |acc.tokens|));
  }

  lemma {:induction false} ContinueRecords(server: Server, version: nat -> int, patience: nat, prompt: seq<int>,
                                           acc: Accumulated, budget: int, cs: seq<Chunk>)
    returns (all: seq<Chunk>)
    requires IsRecord(server, version, prompt, budget, cs, acc)
    requires AllInterrupted(cs, budget)
    ensures var out := Continue(server, version, |cs|, patience, prompt, acc, budget - |acc.tokens|);
            out.Generated? ==> cs <= all && IsRecordOf(server, version, prompt, budget, all, out.response)
    decreases patience
  {
    all := cs;
    if patience == 0 {
    } else {
      var c := server(|cs|, prompt + acc.tokens, budget - |acc.tokens|);
      var acc' := acc.Plus(c, version(|cs|));
      RecordGrows(server, version, prompt, budget, cs, acc);
      InterruptionsGrow(cs, budget, c);
      all := cs + [c];
      if c.stop.Abort? && |acc'.tokens| < budget {
        all := ContinueRecords(server, version, patience - 1, prompt, acc', budget, cs + [c]);
      }
    }
  }

  /** What a response records. Whatever the server does, there are replies, one for each attempt, such that
  attempt `k` was sent the prompt with all earlier tokens and the budget they left; every attempt but the last
  was aborted; the output is their tokens and their log-probabilities in order; and every token carries the
  version that was read after its own attempt. */
  lemma TokensCarryTheirVersion(server: Server, version: nat -> int, patience: nat, req: ModelRequest)
    ensures var out := Generate(server, version, patience, req);
            out.Generated? ==>
              exists cs :: IsRecordOf(server, version, req.inputIds, Budget(req), cs, out.response)
  {
    var out := Generate(server, version, patience, req);
    if out.Generated? {
      var cs := ContinueRecords(server, version, patience, req.inputIds, Accumulated([], [], []), Budget(req), []);
      assert IsRecordOf(server, version, req.inputIds, Budget(req), cs, out.response);
    }
  }

  // ---------------------------------------------------------------- interruption transparency

  /** A deterministic model: the next token of a context, its log-probability, and whether the context
  that it completes ends the generation, and why. */
  datatype Model = Model(next: seq<int> -> int, score: seq<int> -> real, ends: seq<int> -> Ending)

  datatype Ending = GoesOn | Stops | CallsTool

  /** One uninterrupted run of the model. */
  function Decode(m: Model, ctx: seq<int>, budget: nat): Chunk
    decreases budget
  {
    if budget == 0 then Chunk([], [], Length)
    else
      var t := m.next(ctx);
      var lp := m.score(ctx);
      match m.ends(ctx + [t])
      case Stops => Chunk([t], [lp], Stop)
      case CallsTool => Chunk([t], [lp], ToolCalls)
      case GoesOn =>
        var rest := Decode(m, ctx + [t], budget - 1);
        Chunk([t] + rest.tokens, [lp] + rest.logprobs, rest.stop)
  }

  /** `n` tokens into a run that would go on, or that has just used up its budget. */
  predicate Unfinished(run: Chunk, n: nat) { n < |run.tokens| || (n == |run.tokens| && run.stop.Length?) }

  function Prefix(run: Chunk, n: nat): Chunk
    requires n <= |run.tokens| && n <= |run.logprobs|
  {
    Chunk(run.tokens[..n], run.logprobs[..n], Abort)
  }

  /** Every reply is the whole run, or an unfinished prefix of it with the reason `abort`. */
  ghost predicate Serves(server: Server, m: Model) {
    forall k: nat, ctx: seq<int>, b: nat {:trigger server(k, ctx, b), Decode(m, ctx, b)} ::
      b > 0 ==> IsReply(server(k, ctx, b), Decode(m, ctx, b))
  }

  ghost predicate IsReply(c: Chunk, run: Chunk) {
    || c == run
    || (Unfinished(run, |c.tokens|) && |c.tokens| <= |run.logprobs| && c == Prefix(run, |c.tokens|))
  }

  lemma {:induction false} DecodeFits(m: Model, ctx: seq<int>, budget: nat)
    ensures var run := Decode(m, ctx, budget);
            |run.tokens| == |run.logprobs| <= budget && !run.stop.Abort?
              && (run.stop.Length? ==> |run.tokens| == budget)
    decreases budget
  {
    if budget == 0 {
    } else {
      DecodeFits(m, ctx + [m.next(ctx)], budget - 1);
    }
  }

  /** Resuming an unfinished run gives the rest of it. */
  lemma {:induction false} DecodeResumes(m: Model, ctx: seq<int>, budget: nat, n: nat)
    requires Unfinished(Decode(m, ctx, budget), n)
    ensures var run := Decode(m, ctx, budget);
            && n <= |run.tokens| == |run.logprobs| && n <= budget
            && Decode(m, ctx + run.tokens[..n], budget - n) == Chunk(run.tokens[n..], run.logprobs[n..], run.stop)
    decreases n
  {
    DecodeFits(m, ctx, budget);
    var run := Decode(m, ctx, budget);
    if n == 0 {
      assert ctx + run.tokens[..0] == ctx;
    } else {
      var t := m.next(ctx);
      var rest := Decode(m, ctx + [t], budget - 1);
      assert run == Chunk([t] + rest.tokens, [m.score(ctx)] + rest.logprobs, rest.stop);
      DecodeResumes(m, ctx + [t], budget - 1, n - 1);
      AfterFirst(t, rest.tokens, n);
      AfterFirst(m.score(ctx), rest.logprobs, n);
      FirstThenRest(ctx, t, rest.tokens[..n - 1]);
    }
  }

  lemma AfterFirst<T>(t: T, rest: seq<T>, n: nat)
    requires 0 < n <= |rest| + 1
    ensures ([t] + rest)[..n] == [t] + rest[..n - 1] && ([t] + rest)[n..] == rest[n - 1..]
  {
  }

  lemma FirstThenRest<T>(ctx: seq<T>, t: T, rest: seq<T>)
    ensures ctx + ([t] + rest) == ctx + [t] + rest
  {
  }

  lemma Longer<T>(s: seq<T>, n: nat, k: nat)
    requires n + k <= |s|
    ensures s[..n] + s[n..][..k] == s[..n + k]
    ensures s[..n] + s[n..] == s
  {
  }

  /** The generation stands `n` tokens into the run. */
  ghost predicate At(acc: Accumulated, run: Chunk, n: nat) {
    && Unfinished(run, n) && n <= |run.tokens| == |run.logprobs|
    && acc.tokens == run.tokens[..n] && acc.logprobs == run.logprobs[..n]
  }

  /** An unfinished reply moves the generation forward along the run; a finished one completes it. */
  lemma ReplyFollowsRun(c: Chunk, run: Chunk, acc: Accumulated, version: int, n: nat)
    requires At(acc, run, n)
    requires IsReply(c, Chunk(run.tokens[n..], run.logprobs[n..], run.stop))
    ensures c.stop.Abort? ==> At(acc.Plus(c, version), run, n + |c.tokens|) || c.stop == run.stop
    ensures !c.stop.Abort? ==>
      acc.Plus(c, version).tokens == run.tokens && acc.Plus(c, version).logprobs == run.logprobs && c.stop == run.stop
  {
    Longer(run.tokens, n, |c.tokens|);
    Longer(run.logprobs, n, |c.tokens|);
  }

  lemma ServedFrom(server: Server, m: Model, k: nat, prompt: seq<int>, acc: Accumulated, budget: nat, n: nat)
    requires Serves(server, m) && n < budget && At(acc, Decode(m, prompt, budget), n)
    ensures var run := Decode(m, prompt, budget);
            IsReply(server(k, prompt + acc.tokens, budget - n), Chunk(run.tokens[n..], run.logprobs[n..], run.stop))
  {
    DecodeResumes(m, prompt, budget, n);
    var left: nat := budget - n;
    assert IsReply(server(k, prompt + acc.tokens, left), Decode(m, prompt + acc.tokens, left));
  }

  lemma {:induction false} ContinueFollowsRun(server: Server, m: Model, version: nat -> int, k: nat, patience: nat,
                                              prompt: seq<int>, acc: Accumulated, budget: nat, n: nat)
    requires Serves(server, m) && n < budget && At(acc, Decode(m, prompt, budget), n)
    ensures var out := Continue(server, version, k, patience, prompt, acc, budget - n);
            out.StillAborting? || (out.Generated? && MatchesRun(out.response, Decode(m, prompt, budget)))
    decreases patience
  {
    if patience == 0 {
    } else {
      var c := server(k, prompt + acc.tokens, budget - n);
      OneReply(server, m, version(k), k, prompt, acc, budget, n);
      ContinueUnfolds(server, version, k, patience, prompt, acc, budget - n);
      if c.stop.Abort? && |c.tokens| < budget - n {
        ContinueFollowsRun(server, m, version, k + 1, patience - 1, prompt, acc.Plus(c, version(k)), budget,
                           n + |c.tokens|);
      }
    }
  }

  /** A reply keeps the generation on the run, and the last one completes it. */
  lemma OneReply(server: Server, m: Model, version: int, k: nat, prompt: seq<int>, acc: Accumulated, budget: nat,
                 n: nat)
    requires Serves(server, m) && n < budget && At(acc, Decode(m, prompt, budget), n)
    ensures |server(k, prompt + acc.tokens, budget - n).tokens| <= budget - n
    ensures var c := server(k, prompt + acc.tokens, budget - n);
            var acc', run := acc.Plus(c, version), Decode(m, prompt, budget);
            if c.stop.Abort? && |c.tokens| < budget - n then At(acc', run, n + |c.tokens|)
            else
              && acc'.tokens == run.tokens && acc'.logprobs == run.logprobs
              && run.stop == if c.stop.Abort? then Length else c.stop
  {
    var run := Decode(m, prompt, budget);
    var c := server(k, prompt + acc.tokens, budget - n);
    DecodeFits(m, prompt, budget);
    ServedFrom(server, m, k, prompt, acc, budget, n);
    ReplyStaysOnRun(c, run, acc, version, n, budget);
  }

  lemma ReplyStaysOnRun(c: Chunk, run: Chunk, acc: Accumulated, version: int, n: nat, budget: nat)
    requires At(acc, run, n) && n < budget && |run.tokens| <= budget && !run.stop.Abort?
             && (run.stop.Length? ==> |run.tokens| == budget)
    requires IsReply(c, Chunk(run.tokens[n..], run.logprobs[n..], run.stop))
    ensures |c.tokens| <= budget - n
    ensures var acc' := acc.Plus(c, version);
            if c.stop.Abort? && |c.tokens| < budget - n then At(acc', run, n + |c.tokens|)
            else
              && acc'.tokens == run.tokens && acc'.logprobs == run.logprobs
              && run.stop == if c.stop.Abort? then Length else c.stop
  {
    ReplyFollowsRun(c, run, acc, version, n);
  }

  lemma ContinueUnfolds(server: Server, version: nat -> int, k: nat, patience: nat, prompt: seq<int>,
                        acc: Accumulated, budget: int)
    requires patience > 0 && |server(k, prompt + acc.tokens, budget).tokens| <= budget
    ensures var c := server(k, prompt + acc.tokens, budget);
            var acc' := acc.Plus(c, version(k));
            Continue(server, version, k, patience, prompt, acc, budget) ==
            if c.stop.Abort? && |c.tokens| < budget
            then Continue(server, version, k + 1, patience - 1, prompt, acc', budget - |c.tokens|)
            else Generated(ModelResponse(prompt, acc'.tokens, acc'.logprobs, acc'.versions,
                                         if c.stop.Abort? then Length else c.stop))
  {
  }

  ghost predicate MatchesRun(r: ModelResponse, run: Chunk) {
    r.outputTokens == run.tokens && r.outputLogprobs == run.logprobs && r.stop == run.stop
  }

  /** Attempt `j` is never aborted. */
  ghost predicate Completes(server: Server, j: nat) {
    forall ctx, b :: !server(j, ctx, b).stop.Abort?
  }

  lemma {:induction false} StopsAborting(server: Server, version: nat -> int, k: nat, patience: nat,
                                         prompt: seq<int>, acc: Accumulated, budget: int, j: nat)
    requires k <= j < k + patience && Completes(server, j)
    ensures !Continue(server, version, k, patience, prompt, acc, budget).StillAborting?
    decreases patience
  {
    var c := server(k, prompt + acc.tokens, budget);
    if k == j {
    } else {
      StopsAborting(server, version, k + 1, patience - 1, prompt, acc.Plus(c, version(k)), budget - |c.tokens|, j);
    }
  }

  /** Interruption transparency. For a deterministic model, `agenerate` returns the tokens, the
  log-probabilities and the stop reason of one uninterrupted run, wherever and however often the server
  aborts; and it does return once an attempt is not aborted. */
  lemma InterruptionsAreInvisible(server: Server, m: Model, version: nat -> int, patience: nat, req: ModelRequest)
    requires Serves(server, m) && req.nSamples == 1 && Budget(req) > 0
    ensures var out := Generate(server, version, patience, req);
            out.StillAborting? || (out.Generated? && MatchesRun(out.response, Decode(m, req.inputIds, Budget(req))))
    ensures (exists j: nat :: j < patience && Completes(server, j)) ==>
            Generate(server, version, patience, req).Generated?
  {
    var start := Accumulated([], [], []);
    DecodeFits(m, req.inputIds, Budget(req));
    RunIsNotEmpty(m, req.inputIds, Budget(req));
    ContinueFollowsRun(server, m, version, 0, patience, req.inputIds, start, Budget(req), 0);
    if j: nat :| j < patience && Completes(server, j) {
      StopsAborting(server, version, 0, patience, req.inputIds, start, Budget(req), j);
    }
  }

  lemma RunIsNotEmpty(m: Model, ctx: seq<int>, budget: nat)
    requires budget > 0
    ensures |Decode(m, ctx, budget).tokens| > 0
  {
  }
}
