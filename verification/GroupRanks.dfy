/** The process groups of the weight update: the trainers create them with rank 0, and every inference
server joins with a block of consecutive ranks that it computes on its own. Models
areal/engine/{fsdp_engine,megatron_engine,sglang_remote,vllm_remote}.py. */
module GroupRanks {
  import opened Arithmetic
  import opened Wrappers
  import opened Decimal
  import opened Strategy

  // ---------------------------------------------------------------- group names

  /** `name.rsplit("_", 1)[-1]`: what follows the last underscore. */
  function LastPart(name: string): string {
    if name == [] || name[|name| - 1] == '_' then [] else LastPart(name[..|name| - 1]) + [name[|name| - 1]]
  }

  function GroupName(base: string, ppRank: nat): string { base + "_" + Numeral(ppRank) }

  lemma {:induction false} LastPartOfSuffixed(base: string, digits: string)
    requires AllDigits(digits)
    ensures LastPart(base + "_" + digits) == digits
  {
    var name := base + "_" + digits;
    if digits == [] {
      assert name[|name| - 1] == '_';
    } else {
      var front := digits[..|digits| - 1];
      LastPartOfSuffixed(base, front);
      assert name[..|name| - 1] == base + "_" + front;
      assert IsDigit(digits[|digits| - 1]) && name[|name| - 1] == digits[|digits| - 1];
    }
  }

  /** The pipeline rank that the trainer writes is the one that the server reads, whatever the base name. */
  lemma RankSurvivesTheName(base: string, ppRank: nat)
    ensures Parse(LastPart(GroupName(base, ppRank))) == Some(ppRank)
  {
    ParseNumeral(ppRank);
    LastPartOfSuffixed(base, Numeral(ppRank));
  }

  // ---------------------------------------------------------------- the servers

  datatype Request = Request(rankOffset: nat, worldSize: nat, groupName: string, ppRank: Option<nat>)

  function SglangRequest(server: nat, g: ParallelStrategy, name: string): Request
    requires Positive(g)
  {
    PositiveProduct(g.tp, g.pp);
    PositiveProduct(server, g.tp);
    PositiveProduct(server, g.tp * g.pp);
    PositiveProduct(WorldSize(g) / (g.tp * g.pp), g.tp);
    if g.pp > 1 && Parse(LastPart(name)).Some? then
      Request(1 + server * g.tp, WorldSize(g) / (g.tp * g.pp) * g.tp + 1, name, Parse(LastPart(name)))
    else
      Request(1 + server * (g.tp * g.pp), WorldSize(g) + 1, name, None)
  }

  function VllmRequest(server: nat, g: ParallelStrategy, name: string): Request
    requires Positive(g)
  {
    PositiveProduct(server, g.tp);
    PositiveProduct(server * g.tp, g.pp);
    Request(1 + server * g.tp * g.pp, WorldSize(g) + 1, name, None)
  }

  /** The ranks that a server takes in the group: its workers of one pipeline stage, or all of them. */
  function Width(g: ParallelStrategy, r: Request): nat {
    PositiveProduct(g.tp, g.pp);
    if r.ppRank.Some? then g.tp else g.tp * g.pp
  }

  /** One server for each data-parallel replica. */
  function Servers(g: ParallelStrategy): nat {
    PositiveProduct(g.dp, g.cp);
    g.dp * g.cp
  }

  lemma WorldSizeByServers(g: ParallelStrategy)
    requires Positive(g)
    ensures WorldSize(g) == Servers(g) * (g.tp * g.pp) == Servers(g) * g.tp * g.pp
    ensures WorldSize(g) / (g.tp * g.pp) == Servers(g)
    ensures WorldSize(g) / g.pp == Servers(g) * g.tp
  {
    var n := Servers(g);
    assert n * (g.tp * g.pp) == n * g.tp * g.pp;
    PositiveProduct(g.tp, g.pp);
    PositiveProduct(n, g.tp);
    DivMod(WorldSize(g), n, 0, g.tp * g.pp);
    DivMod(WorldSize(g), n * g.tp, 0, g.pp);
  }

  /** A rank in a row of blocks of `width` ranks that starts at 1. */
  lemma InBlock(r: int, k: nat, width: nat, n: nat)
    requires width >= 1
    ensures 1 + k * width <= r < 1 + k * width + width <==> r >= 1 && (r - 1) / width == k
    ensures 1 <= r < n * width + 1 ==> 0 <= (r - 1) / width < n
    ensures k < n ==> 1 + k * width + width <= n * width + 1
  {
    PositiveProduct(k, width);
    if 1 + k * width <= r < 1 + k * width + width {
      DivMod(r - 1, k, r - 1 - k * width, width);
    }
    var q := (r - 1) / width;
    assert r - 1 == q * width + (r - 1) % width;
    assert (q - n) * width == q * width - n * width;
    MulAtLeast(q - n, width);
    assert (n - k) * width == n * width - k * width;
    MulAtLeast(n - k, width);
    if r >= 1 {
      MulAtLeast(q, width);
    }
  }

  /** Rank 0 is the trainer's. Every other rank of the group lies in the block of exactly one server, and no
  block leaves the group: for a group of one pipeline stage and for a group of all workers. */
  lemma SglangRanksPartition(g: ParallelStrategy, name: string, k: nat, r: int)
    requires Positive(g) && k < Servers(g)
    ensures var q := SglangRequest(k, g, name);
            var w := Width(g, q);
            && w >= 1
            && (q.rankOffset <= r < q.rankOffset + w <==> 1 <= r < q.worldSize && (r - 1) / w == k)
            && (1 <= r < q.worldSize ==> 0 <= (r - 1) / w < Servers(g))
  {
    var w := Width(g, SglangRequest(k, g, name));
    WorldSizeByServers(g);
    PositiveProduct(g.tp, g.pp);
    InBlock(r, k, w, Servers(g));
  }

  /** The group's size and the width of a block are the same for every server. */
  lemma VllmRanksPartition(g: ParallelStrategy, name: string, k: nat, r: int)
    requires Positive(g) && k < Servers(g)
    ensures var q := VllmRequest(k, g, name);
            var w := Width(g, q);
            && w >= 1
            && (q.rankOffset <= r < q.rankOffset + w <==> 1 <= r < q.worldSize && (r - 1) / w == k)
            && (1 <= r < q.worldSize ==> 0 <= (r - 1) / w < Servers(g))
  {
    var w := Width(g, VllmRequest(k, g, name));
    WorldSizeByServers(g);
    PositiveProduct(g.tp, g.pp);
    assert k * g.tp * g.pp == k * (g.tp * g.pp);
    InBlock(r, k, w, Servers(g));
  }

  // ---------------------------------------------------------------- the trainers

  datatype Group = Group(name: string, worldSize: nat)

  /** The metadata of an update; only the group name matters here. */
  class Meta {
    var groupName: string
    constructor (groupName: string)
      ensures this.groupName == groupName
    {
      this.groupName := groupName;
    }
  }

  /** `meta.nccl_group_name or "update_weight_group"`. */
  function Base(groupName: string): string { if groupName == "" then "update_weight_group" else groupName }

  function FsdpNames(g: ParallelStrategy, groupName: string): seq<string> {
    if g.pp > 1 then StageNames(Base(groupName), g.pp) else [Base(groupName)]
  }

  function StageNames(base: string, n: nat): (names: seq<string>)
    ensures |names| == n && forall i :: 0 <= i < n ==> names[i] == GroupName(base, i)
  {
    if n == 0 then [] else StageNames(base, n - 1) + [GroupName(base, n - 1)]
  }

  function FsdpWorldSize(g: ParallelStrategy): nat
    requires Positive(g)
  {
    if g.pp > 1 then WorldSize(g) / g.pp + 1 else WorldSize(g) + 1
  }

  class FsdpEngine {
    var names: seq<string>
    var groups: seq<Group>

    constructor ()
      ensures names == [] && groups == []
    {
      names, groups := [], [];
    }

    /** One group for each pipeline stage. Every stage works on a copy of `meta`, which keeps its name. */
    method InitPerStageGroups(meta: Meta, g: ParallelStrategy, main: bool)
      requires Positive(g) && g.pp > 1
      modifies this
      ensures names == FsdpNames(g, meta.groupName)
      ensures main ==> |groups| == |names|
      ensures main ==> forall i :: 0 <= i < |names| ==> groups[i] == Group(names[i], FsdpWorldSize(g))
      ensures !main ==> groups == []
    {
      names, groups := [], [];
      for stage := 0 to g.pp
        invariant names == StageNames(Base(meta.groupName), stage)
        invariant main ==> |groups| == |names|
        invariant main ==> forall i :: 0 <= i < |names| ==> groups[i] == Group(names[i], FsdpWorldSize(g))
        invariant !main ==> groups == []
      {
        var stageMeta := new Meta(GroupName(Base(meta.groupName), stage));
        names := names + [stageMeta.groupName];
        if main {
          groups := groups + [Group(stageMeta.groupName, WorldSize(g) / g.pp + 1)];
        }
      }
    }

    /** The groups of the FSDP trainer: rank 0 joins one for every name, and the other ranks join none. With one
    stage the name is stored back. */
    method InitGroups(meta: Meta, g: ParallelStrategy, main: bool)
      requires Positive(g)
      modifies this, meta
      ensures names == FsdpNames(g, old(meta.groupName))
      ensures meta.groupName == if g.pp > 1 then old(meta.groupName) else names[0]
      ensures main ==> |groups| == |names|
      ensures main ==> forall i :: 0 <= i < |names| ==> groups[i] == Group(names[i], FsdpWorldSize(g))
      ensures !main ==> groups == []
    {
      if g.pp > 1 {
        InitPerStageGroups(meta, g, main);
      } else {
        names := [Base(meta.groupName)];
        meta.groupName := names[0];
        groups := if main then [Group(names[0], WorldSize(g) + 1)] else [];
      }
    }
  }

  /** The groups of the Megatron trainer: every pipeline head creates its own. */
  function MegatronGroup(g: ParallelStrategy, trainPp: nat, head: nat): Option<Group>
    requires Positive(g)
  {
    if g.pp > 1 then
      if trainPp != g.pp then None
      else Some(Group(GroupName("update_weight_group", head), WorldSize(g) / g.pp + 1))
    else Some(Group(GroupName("update_weight_group", head), WorldSize(g) + 1))
  }

  // ---------------------------------------------------------------- agreement

  predicate Agrees(q: Request, group: Group, stage: Option<nat>) {
    q.groupName == group.name && q.worldSize == group.worldSize && q.ppRank == stage
  }

  /** The FSDP trainer and every SGLang server agree on the size of each group and on its pipeline stage. */
  lemma FsdpAgreesWithSglang(g: ParallelStrategy, groupName: string, stage: nat, server: nat)
    requires Positive(g) && stage < g.pp
    ensures stage < |FsdpNames(g, groupName)|
    ensures var group := Group(FsdpNames(g, groupName)[stage], FsdpWorldSize(g));
            Agrees(SglangRequest(server, g, group.name), group, if g.pp > 1 then Some(stage) else None)
  {
    WorldSizeByServers(g);
    RankSurvivesTheName(Base(groupName), stage);
  }

  lemma MegatronAgreesWithSglang(g: ParallelStrategy, trainPp: nat, head: nat, server: nat)
    requires Positive(g) && head < trainPp
    ensures var group := MegatronGroup(g, trainPp, head);
            && (group.None? <==> g.pp > 1 && trainPp != g.pp)
            && (group.Some? ==>
               Agrees(SglangRequest(server, g, group.value.name), group.value, if g.pp > 1 then Some(head) else None))
  {
    WorldSizeByServers(g);
    RankSurvivesTheName("update_weight_group", head);
  }

  /** With vLLM the sizes agree only without pipeline parallelism: its servers always count all stages. */
  lemma FsdpAgreesWithVllm(g: ParallelStrategy, groupName: string, stage: nat, server: nat)
    requires Positive(g) && stage < g.pp
    ensures stage < |FsdpNames(g, groupName)|
    ensures VllmRequest(server, g, FsdpNames(g, groupName)[stage]).worldSize == FsdpWorldSize(g) <==> g.pp == 1
  {
    WorldSizeByServers(g);
    var perStage := Servers(g) * g.tp;
    PositiveProduct(Servers(g), g.tp);
    PositiveProduct(g.dp, g.cp);
    assert WorldSize(g) == perStage * g.pp;
    assert perStage * g.pp - perStage == perStage * (g.pp - 1);
    PositiveProduct(perStage, g.pp - 1);
  }

  /** The groups of different stages have different names. */
  lemma StageNamesDiffer(g: ParallelStrategy, groupName: string, i: nat, j: nat)
    requires i < |FsdpNames(g, groupName)| && j < |FsdpNames(g, groupName)|
    ensures FsdpNames(g, groupName)[i] == FsdpNames(g, groupName)[j] <==> i == j
  {
    RankSurvivesTheName(Base(groupName), i);
    RankSurvivesTheName(Base(groupName), j);
  }

  /** All of them start with the name of the update. */
  lemma NamesStartAlike(g: ParallelStrategy, groupName: string, i: nat)
    requires i < |FsdpNames(g, groupName)|
    ensures groupName != "" ==> groupName <= FsdpNames(g, groupName)[i]
  {
    if g.pp > 1 {
      assert FsdpNames(g, groupName)[i] == GroupName(Base(groupName), i);
    } else {
      assert FsdpNames(g, groupName)[i] == Base(groupName);
    }
  }
}
