/** Strategies from lists of dimensions: the `train_*` and inference builders and `hybrid_train_para` of
areal/api/alloc_mode.py, where attention and expert modules have their own sizes. */
module Hybrid {
  import opened Arithmetic
  import opened Wrappers
  import opened Strategy

  datatype Error = PipelineMismatch | CannotDerive | WorldSizeMismatch | NotDivisible | NotForFsdp | Syntax
                 | MultiComponent

  datatype Result<T> = Ok(value: T) | Err(error: Error)

  /** One token of a specification, such as `t4`. The grammar admits no size 0. */
  datatype Dim = Dim(kind: char, size: nat)

  predicate Sized(dims: seq<Dim>) { forall i :: 0 <= i < |dims| ==> dims[i].size >= 1 }

  /** The size given last. */
  function Last(dims: seq<Dim>, kind: char): (r: Option<nat>)
    ensures Sized(dims) && r.Some? ==> r.value >= 1
  {
    if dims == [] then None
    else if dims[|dims| - 1].kind == kind then Some(dims[|dims| - 1].size)
    else Last(dims[..|dims| - 1], kind)
  }

  function OrOne(size: Option<nat>): nat { if size.Some? then size.value else 1 }

  function Size(dims: seq<Dim>, kind: char): (n: nat)
    ensures Sized(dims) ==> n >= 1
  {
    OrOne(Last(dims, kind))
  }

  lemma {:induction false} LastOfAppend(a: seq<Dim>, b: seq<Dim>, kind: char)
    ensures Last(a + b, kind) == if Last(b, kind).Some? then Last(b, kind) else Last(a, kind)
  {
    if b == [] {
      assert a + b == a;
    } else {
      LastOfAppend(a, b[..|b| - 1], kind);
      assert (a + b)[..|a + b| - 1] == a + b[..|b| - 1];
    }
  }

  lemma LastOfOne(d: Dim, kind: char)
    ensures Last([d], kind) == if d.kind == kind then Some(d.size) else None
  {
    assert [d][..0] == [];
  }

  /** `n` is the size of the last dimension of this kind, or 1 if there is none. */
  ghost predicate IsSize(dims: seq<Dim>, kind: char, n: nat) {
    || (exists i :: 0 <= i < |dims| && IsLast(dims, kind, i) && dims[i].size == n)
    || (n == 1 && forall i :: 0 <= i < |dims| ==> dims[i].kind != kind)
  }

  ghost predicate IsLast(dims: seq<Dim>, kind: char, i: nat)
    requires i < |dims|
  {
    dims[i].kind == kind && forall j :: i < j < |dims| ==> dims[j].kind != kind
  }

  lemma {:induction false} LastIsGiven(dims: seq<Dim>, kind: char)
    ensures var r := Last(dims, kind);
            if r.Some? then exists i :: 0 <= i < |dims| && IsLast(dims, kind, i) && dims[i].size == r.value
            else forall i :: 0 <= i < |dims| ==> dims[i].kind != kind
  {
    if dims == [] {
    } else {
      var n := |dims| - 1;
      LastIsGiven(dims[..n], kind);
      if dims[n].kind == kind {
        assert IsLast(dims, kind, n);
      } else if Last(dims[..n], kind).Some? {
        var i :| 0 <= i < n && IsLast(dims[..n], kind, i) && dims[i].size == Last(dims, kind).value;
        assert IsLast(dims, kind, i);
      }
    }
  }

  lemma SizeIsGiven(dims: seq<Dim>, kind: char)
    ensures IsSize(dims, kind, Size(dims, kind))
    ensures forall n :: IsSize(dims, kind, n) ==> n == Size(dims, kind)
  {
    LastIsGiven(dims, kind);
    forall n | IsSize(dims, kind, n) ensures n == Size(dims, kind) {
      if i, j :| 0 <= i < |dims| && 0 <= j < |dims| && IsLast(dims, kind, i) && IsLast(dims, kind, j) {
        assert i == j;
      }
    }
  }

  // ---------------------------------------------------------------- plain strategies

  function Plain(dims: seq<Dim>): ParallelStrategy {
    ParallelStrategy(Size(dims, 'd'), Size(dims, 'p'), Size(dims, 't'), Size(dims, 'c'), Size(dims, 'e'), 1)
  }

  /** The builders for training and inference backends; the grammar decides which kinds can occur. */
  method BuildPlain(dims: seq<Dim>) returns (s: ParallelStrategy)
    ensures s == Plain(dims)
  {
    var d, p, t, c, e := 1, 1, 1, 1, 1;
    for i := 0 to |dims|
      invariant ParallelStrategy(d, p, t, c, e, 1) == Plain(dims[..i])
    {
      assert dims[..i + 1][..i] == dims[..i];
      if dims[i].kind == 'd' { d := dims[i].size; }
      else if dims[i].kind == 't' { t := dims[i].size; }
      else if dims[i].kind == 'p' { p := dims[i].size; }
      else if dims[i].kind == 'c' { c := dims[i].size; }
      else if dims[i].kind == 'e' { e := dims[i].size; }
    }
    assert dims[..|dims|] == dims;
    s := ParallelStrategy(d, p, t, c, e, 1);
  }

  /** Every size is the one given for its letter. */
  lemma PlainSizes(dims: seq<Dim>)
    ensures var s := Plain(dims);
            && IsSize(dims, 'd', s.dp) && IsSize(dims, 'p', s.pp) && IsSize(dims, 't', s.tp)
            && IsSize(dims, 'c', s.cp) && IsSize(dims, 'e', s.ep) && s.etp == 1
  {
    forall kind ensures IsSize(dims, kind, Size(dims, kind)) {
      SizeIsGiven(dims, kind);
    }
  }

  // ---------------------------------------------------------------- hybrid strategies

  /** The world size of the attention modules. */
  function AttnWorldSize(attn: seq<Dim>): (w: nat)
    ensures Sized(attn) ==> w >= 1
  {
    WorldSize(ParallelStrategy(Size(attn, 'd'), Size(attn, 'p'), Size(attn, 't'), Size(attn, 'c'), 1, 1))
  }

  /** What one expert replica occupies. */
  function FfnModelSize(attn: seq<Dim>, ffn: seq<Dim>): (n: nat)
    ensures Sized(attn) && Sized(ffn) ==> n >= 1
  {
    var pp, tp, ep := Size(attn, 'p'), Size(ffn, 't'), Size(ffn, 'e');
    PositiveProduct(pp, tp);
    PositiveProduct(pp * tp, ep);
    pp * tp * ep
  }

  function Combined(attn: seq<Dim>, ffn: seq<Dim>): ParallelStrategy {
    Plain(attn).(ep := Size(ffn, 'e'), etp := Size(ffn, 't'))
  }

  /** `edp` replicas of the experts fill the attention world, and no dimension contradicts that. */
  predicate Fills(attn: seq<Dim>, ffn: seq<Dim>, edp: nat) {
    && AttnWorldSize(attn) == edp * FfnModelSize(attn, ffn)
    && (Last(ffn, 'd').Some? ==> Last(ffn, 'd').value == edp)
    && (Last(ffn, 'p').Some? ==> Last(ffn, 'p').value == Size(attn, 'p'))
  }

  /** Why a pair of lists is refused. */
  function Refusal(attn: seq<Dim>, ffn: seq<Dim>): Error {
    if Last(ffn, 'p').Some? && Last(ffn, 'p').value != Size(attn, 'p') then PipelineMismatch
    else if Last(ffn, 'd').None? then CannotDerive
    else WorldSizeMismatch
  }

  /** The result of `HybridTrainPara`. */
  function HybridStrategy(attn: seq<Dim>, ffn: seq<Dim>): Result<ParallelStrategy>
    requires Sized(attn) && Sized(ffn)
  {
    if Fills(attn, ffn, AttnWorldSize(attn) / FfnModelSize(attn, ffn)) then Ok(Combined(attn, ffn))
    else Err(Refusal(attn, ffn))
  }

  method BuildFfn(ffn: seq<Dim>) returns (d: Option<nat>, p: Option<nat>, t: nat, e: nat)
    ensures d == Last(ffn, 'd') && p == Last(ffn, 'p') && t == Size(ffn, 't') && e == Size(ffn, 'e')
  {
    d, p, t, e := None, None, 1, 1;
    for i := 0 to |ffn|
      invariant d == Last(ffn[..i], 'd') && p == Last(ffn[..i], 'p') && t == Size(ffn[..i], 't')
                && e == Size(ffn[..i], 'e')
    {
      assert ffn[..i + 1][..i] == ffn[..i];
      if ffn[i].kind == 'd' { d := Some(ffn[i].size); }
      else if ffn[i].kind == 'p' { p := Some(ffn[i].size); }
      else if ffn[i].kind == 't' { t := ffn[i].size; }
      else if ffn[i].kind == 'e' { e := ffn[i].size; }
    }
    assert ffn[..|ffn|] == ffn;
  }

  method HybridTrainPara(attn: seq<Dim>, ffn: seq<Dim>) returns (r: Result<ParallelStrategy>)
    requires Sized(attn) && Sized(ffn)
    ensures r == HybridStrategy(attn, ffn)
    ensures r.Ok? ==> KeepsSizes(attn, ffn, r.value)
  {
    var sizes := BuildPlain(attn);
    var d, p, t, c := sizes.dp, sizes.pp, sizes.tp, sizes.cp;
    var expertDp, expertPp, expertTp, expertEp := BuildFfn(ffn);
    Decision(attn, ffn);
    if expertPp.None? {
      expertPp := Some(p);
    } else if expertPp.value != p {
      return Err(PipelineMismatch);
    }
    Reorder(d, t, p, c);
    var replicas := MatchWorlds(d * t * p * c, expertDp, expertPp.value, expertTp, expertEp);
    r := if replicas.Ok? then Ok(ParallelStrategy(d, p, t, c, expertEp, expertTp)) else Err(replicas.error);
    if r.Ok? {
      AcceptedSizes(attn, ffn);
    }
  }

  /** The number of expert replicas, given or derived, with which the experts fill `w` devices. */
  method MatchWorlds(w: nat, dp: Option<nat>, pp: nat, tp: nat, ep: nat) returns (r: Result<nat>)
    requires w >= 1 && pp * tp * ep >= 1
    ensures r == if dp.Some? then (if w == dp.value * (pp * tp * ep) then Ok(dp.value) else Err(WorldSizeMismatch))
                 else if w % (pp * tp * ep) == 0 then Ok(w / (pp * tp * ep)) else Err(CannotDerive)
  {
    ghost var n := pp * tp * ep;
    var expertDp := dp;
    if dp.None? {
      var ffnNonDp := ep * tp * pp;
      assert ffnNonDp == tp * ep * pp == n;
      if w % ffnNonDp != 0 {
        return Err(CannotDerive);
      }
      expertDp := Some(w / ffnNonDp);
      OnlyOneQuotient(w, w / n, n);
    }
    var expertWorldSize := expertDp.value * pp * tp * ep;
    Regroup(expertDp.value, pp, tp, ep);
    r := if w != expertWorldSize then Err(WorldSizeMismatch) else Ok(expertDp.value);
  }

  /** The result, by the cases that the code distinguishes. */
  lemma Decision(attn: seq<Dim>, ffn: seq<Dim>)
    requires Sized(attn) && Sized(ffn)
    ensures var w, n, d, p := AttnWorldSize(attn), FfnModelSize(attn, ffn), Last(ffn, 'd'), Last(ffn, 'p');
            && (d.None? && w % n == 0 ==> w == w / n * n)
            && HybridStrategy(attn, ffn) ==
                 if p.Some? && p.value != Size(attn, 'p') then Err(PipelineMismatch)
                 else if d.None? && w % n != 0 then Err(CannotDerive)
                 else if d.Some? && w != d.value * n then Err(WorldSizeMismatch)
                 else Ok(Combined(attn, ffn))
  {
    var w, n, d := AttnWorldSize(attn), FfnModelSize(attn, ffn), Last(ffn, 'd');
    OnlyOneFits(attn, ffn, w / n);
    if d.Some? {
      OnlyOneFits(attn, ffn, d.value);
    }
  }

  lemma Reorder(d: nat, t: nat, p: nat, c: nat)
    ensures d * t * p * c == d * c * t * p
  {
    assert d * t * p * c == d * t * c * p == d * c * t * p;
  }

  lemma Regroup(a: nat, b: nat, c: nat, d: nat)
    ensures a * b * c * d == a * (b * c * d)
  {
    assert a * b * c * d == a * (b * c) * d == a * (b * c * d);
  }

  /** At most one number of replicas fills the attention world. */
  lemma OnlyOneFits(attn: seq<Dim>, ffn: seq<Dim>, edp: nat)
    requires Sized(attn) && Sized(ffn)
    ensures var w, n := AttnWorldSize(attn), FfnModelSize(attn, ffn);
            (w % n == 0 ==> w == w / n * n) && (w == edp * n ==> edp == w / n && w % n == 0)
  {
    OnlyOneQuotient(AttnWorldSize(attn), edp, FfnModelSize(attn, ffn));
  }

  lemma OnlyOneQuotient(w: nat, q: nat, n: nat)
    requires n >= 1
    ensures (w % n == 0 ==> w == w / n * n) && (w == q * n ==> q == w / n && w % n == 0)
  {
    assert w == w / n * n + w % n;
    if w == q * n {
      DivMod(w, q, 0, n);
    }
  }

  // ---------------------------------------------------------------- what acceptance means

  /** The sizes of the attention modules, and from the experts' list only their own two. */
  ghost predicate KeepsSizes(attn: seq<Dim>, ffn: seq<Dim>, s: ParallelStrategy) {
    && IsSize(attn, 'd', s.dp) && IsSize(attn, 'p', s.pp) && IsSize(attn, 't', s.tp) && IsSize(attn, 'c', s.cp)
    && IsSize(ffn, 'e', s.ep) && IsSize(ffn, 't', s.etp)
  }

  /** Every size of an accepted pair is the one given last for its letter in its list, or 1. */
  lemma AcceptedSizes(attn: seq<Dim>, ffn: seq<Dim>)
    requires Sized(attn) && Sized(ffn) && HybridStrategy(attn, ffn).Ok?
    ensures KeepsSizes(attn, ffn, HybridStrategy(attn, ffn).value)
  {
    PlainSizes(attn);
    SizeIsGiven(ffn, 'e');
    SizeIsGiven(ffn, 't');
  }

  /** A pair of lists is accepted exactly when some number of expert replicas fills the attention world; then
  the sizes multiply up and the divisibility assertion of the constructor holds. */
  lemma AcceptedSizesMultiply(attn: seq<Dim>, ffn: seq<Dim>)
    requires Sized(attn) && Sized(ffn)
    ensures HybridStrategy(attn, ffn).Ok? <==> exists edp: nat :: Fills(attn, ffn, edp)
    ensures HybridStrategy(attn, ffn).Ok? ==>
              var s := HybridStrategy(attn, ffn).value;
              && (exists edp: nat :: Fills(attn, ffn, edp) && s.dp * s.cp * s.tp * s.pp == edp * s.pp * s.etp * s.ep)
              && WorldSize(s) % ExpertModelParallelSize(s) == 0 && Constructible(s)
  {
    forall edp: nat | Fills(attn, ffn, edp) ensures edp == AttnWorldSize(attn) / FfnModelSize(attn, ffn) {
      OnlyOneFits(attn, ffn, edp);
    }
    var edp := AttnWorldSize(attn) / FfnModelSize(attn, ffn);
    if Fills(attn, ffn, edp) {
      ExpertsFillTheWorld(attn, ffn, edp);
    }
  }

  lemma ExpertsFillTheWorld(attn: seq<Dim>, ffn: seq<Dim>, edp: nat)
    requires Sized(attn) && Sized(ffn) && Fills(attn, ffn, edp)
    ensures var s := Combined(attn, ffn);
            WorldSize(s) == edp * s.pp * s.etp * s.ep && WorldSize(s) % ExpertModelParallelSize(s) == 0
            && WorldSize(s) / ExpertModelParallelSize(s) == edp && ExpertModelParallelSize(s) >= 1
  {
    var s := Combined(attn, ffn);
    assert WorldSize(s) == AttnWorldSize(attn) && ExpertModelParallelSize(s) == FfnModelSize(attn, ffn);
    Regroup(edp, s.pp, s.etp, s.ep);
    DivMod(WorldSize(s), edp, 0, FfnModelSize(attn, ffn));
  }

  /** `edp_size` is the number of expert replicas exactly when the experts are distributed, or there happen to
  be as many replicas as of the attention modules. */
  lemma ReportedReplicas(attn: seq<Dim>, ffn: seq<Dim>, edp: nat)
    requires Sized(attn) && Sized(ffn) && Fills(attn, ffn, edp)
    ensures var s := Combined(attn, ffn);
            Constructible(s) && (ExpertDataParallelSize(s) == edp <==> s.ep > 1 || s.dp == edp)
  {
    ExpertsFillTheWorld(attn, ffn, edp);
  }

  /** For `attn:d2t2|ffn:d4` it reports 2 replicas. */
  lemma FourReplicasReportedAsTwo()
    ensures var attn, ffn := [Dim('d', 2), Dim('t', 2)], [Dim('d', 4)];
            && Sized(attn) && Sized(ffn) && Fills(attn, ffn, 4)
            && HybridStrategy(attn, ffn) == Ok(Combined(attn, ffn))
            && Constructible(Combined(attn, ffn)) && ExpertDataParallelSize(Combined(attn, ffn)) == 2
  {
    var attn, ffn := [Dim('d', 2), Dim('t', 2)], [Dim('d', 4)];
    assert attn == [Dim('d', 2)] + [Dim('t', 2)];
    forall kind ensures Last(attn, kind) == if kind == 'd' || kind == 't' then Some(2) else None {
      LastOfAppend([Dim('d', 2)], [Dim('t', 2)], kind);
      LastOfOne(Dim('d', 2), kind);
      LastOfOne(Dim('t', 2), kind);
    }
    forall kind ensures Last(ffn, kind) == if kind == 'd' then Some(4) else None {
      LastOfOne(Dim('d', 4), kind);
    }
    assert Fills(attn, ffn, 4);
    OnlyOneFits(attn, ffn, 4);
    ReportedReplicas(attn, ffn, 4);
  }

  /** Omitting the number of expert replicas is the same as writing the one that fits, and writing any other
  is refused. */
  lemma OmittedReplicasAreDerived(attn: seq<Dim>, ffn: seq<Dim>, edp: nat)
    requires Sized(attn) && Sized(ffn) && Last(ffn, 'd').None? && edp >= 1
    ensures var full := ffn + [Dim('d', edp)];
            Sized(full) && if Fills(attn, ffn, edp) then HybridStrategy(attn, full) == HybridStrategy(attn, ffn)
                           else HybridStrategy(attn, full).Err?
  {
    var full, d := ffn + [Dim('d', edp)], Dim('d', edp);
    forall kind ensures Last(full, kind) == if kind == 'd' then Some(edp) else Last(ffn, kind) {
      LastOfAppend(ffn, [d], kind);
      LastOfOne(d, kind);
    }
    assert FfnModelSize(attn, full) == FfnModelSize(attn, ffn);
    OnlyOneFits(attn, ffn, edp);
  }
}
