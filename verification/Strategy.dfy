/** `ParallelStrategy` of areal/api/alloc_mode.py. */
module Strategy {
  import opened Arithmetic

  datatype ParallelStrategy = ParallelStrategy(dp: nat, pp: nat, tp: nat, cp: nat, ep: nat, etp: nat)

  predicate Positive(s: ParallelStrategy) {
    s.dp >= 1 && s.pp >= 1 && s.tp >= 1 && s.cp >= 1 && s.ep >= 1 && s.etp >= 1
  }

  function WorldSize(s: ParallelStrategy): (w: nat)
    ensures Positive(s) ==> w >= 1
  {
    PositiveProduct(s.dp, s.cp);
    PositiveProduct(s.dp * s.cp, s.tp);
    PositiveProduct(s.dp * s.cp * s.tp, s.pp);
    s.dp * s.cp * s.tp * s.pp
  }

  /** What one expert replica occupies. */
  function ExpertModelParallelSize(s: ParallelStrategy): nat {
    PositiveProduct(s.pp, s.etp);
    PositiveProduct(s.pp * s.etp, s.ep);
    s.pp * s.etp * s.ep
  }

  /** The assertion of `__post_init__`; a size of zero fails in the division. */
  predicate Constructible(s: ParallelStrategy) {
    s.ep > 1 ==> ExpertModelParallelSize(s) > 0 && WorldSize(s) % ExpertModelParallelSize(s) == 0
  }

  /** `edp_size`. */
  function ExpertDataParallelSize(s: ParallelStrategy): nat
    requires Constructible(s)
  {
    if s.ep <= 1 then s.dp else WorldSize(s) / ExpertModelParallelSize(s)
  }
}
