/** Request routing of `RemoteInfEngine` (areal/infra/remote_inf_engine.py): a bounded cache from
request ids to servers with first-in-first-out eviction, filled by a round-robin chooser. */
module Routing {
  import opened Arithmetic

  type Rid = string

  const RID_CACHE_SIZE := 128

  /** `rid_queue`, `rid_to_address` (as server indices) and `server_idx`. */
  datatype Router = Router(queue: seq<Rid>, server: map<Rid, nat>, idx: nat)

  /** One insertion into the cache. */
  datatype Insertion = Insertion(rid: Rid, server: nat)

  const EMPTY_CACHE: map<Rid, nat> := map[]

  function Evicted(r: Router): Router {
    if |r.queue| >= RID_CACHE_SIZE then r.(queue := r.queue[1..], server := r.server - {r.queue[0]}) else r
  }

  /** The router after a request `rid` over `n` servers. */
  function Route(n: nat, r: Router, rid: Rid): Router
    requires n > 0
  {
    if rid in r.server then r
    else
      var e := Evicted(r);
      Router(e.queue + [rid], e.server[rid := r.idx], (r.idx + 1) % n)
  }

  /** All insertions of a run of requests, oldest first. */
  function Insertions(n: nat, start: nat, rids: seq<Rid>): seq<Insertion>
    requires n > 0
  {
    if rids == [] then []
    else
      var rest := rids[..|rids| - 1];
      var before := RouteAll(n, start, rest);
      var rid := rids[|rids| - 1];
      Insertions(n, start, rest) + (if rid in before.server then [] else [Insertion(rid, before.idx)])
  }

  function RouteAll(n: nat, start: nat, rids: seq<Rid>): Router
    requires n > 0
  {
    if rids == [] then Router([], EMPTY_CACHE, start)
    else Route(n, RouteAll(n, start, rids[..|rids| - 1]), rids[|rids| - 1])
  }

  /** The last `RID_CACHE_SIZE` of `log`. */
  function Recent(log: seq<Insertion>): seq<Insertion> {
    if |log| <= RID_CACHE_SIZE then log else log[|log| - RID_CACHE_SIZE..]
  }

  function Rids(log: seq<Insertion>): seq<Rid> { seq(|log|, i requires 0 <= i < |log| => log[i].rid) }

  ghost predicate Distinct(s: seq<Rid>) { forall i, j :: 0 <= i < j < |s| ==> s[i] != s[j] }

  /** The cache is exactly the window `w` of insertions. */
  ghost predicate Mirrors(r: Router, w: seq<Insertion>) {
    && |w| <= RID_CACHE_SIZE
    && r.queue == Rids(w) && Distinct(r.queue)
    && (forall rid :: rid in r.server <==> rid in r.queue)
    && (forall i :: 0 <= i < |w| ==> w[i].rid in r.server && r.server[w[i].rid] == w[i].server)
  }

  lemma InsertKeepsMirror(r: Router, w: seq<Insertion>, rid: Rid, server: nat, idx: nat)
    requires Mirrors(r, w) && |w| < RID_CACHE_SIZE && rid !in r.server
    ensures Mirrors(Router(r.queue + [rid], r.server[rid := server], idx), w + [Insertion(rid, server)])
  {
    var w' := w + [Insertion(rid, server)];
    assert Rids(w') == Rids(w) + [rid];
  }

  lemma EvictKeepsMirror(r: Router, w: seq<Insertion>)
    requires Mirrors(r, w) && |w| == RID_CACHE_SIZE
    ensures Mirrors(Evicted(r), w[1..])
    ensures forall rid :: rid !in r.server ==> rid !in Evicted(r).server
  {
    var e := Evicted(r);
    assert Rids(w[1..]) == Rids(w)[1..];
    forall rid ensures rid in e.server <==> rid in e.queue {
      if rid in e.server {
        var i :| 0 <= i < |r.queue| && r.queue[i] == rid;
        assert e.queue[i - 1] == rid;
      }
      if rid in e.queue {
        var i :| 0 <= i < |e.queue| && e.queue[i] == rid;
        assert r.queue[i + 1] == rid && r.queue[0] != rid;
      }
    }
    forall i | 0 <= i < |w[1..]| ensures w[1..][i].rid in e.server && e.server[w[1..][i].rid] == w[1..][i].server {
      assert w[1..][i] == w[i + 1] && e.queue[i] == w[i + 1].rid;
    }
  }

  /** After any run of requests the queue has no duplicates, at most 128 entries and exactly the keys
  of the map; it is the last 128 insertions, each with the server it was given. */
  lemma {:induction false} CacheIsTheRecentInsertions(n: nat, start: nat, rids: seq<Rid>)
    requires n > 0
    ensures Mirrors(RouteAll(n, start, rids), Recent(Insertions(n, start, rids)))
  {
    if rids == [] {
    } else {
      var rest, rid := rids[..|rids| - 1], rids[|rids| - 1];
      assert rids == rest + [rid];
      CacheIsTheRecentInsertions(n, start, rest);
      InsertionsUnfold(n, start, rest, rid);
      var r, log := RouteAll(n, start, rest), Insertions(n, start, rest);
      if rid in r.server {
        assert Insertions(n, start, rids) == log;
      } else {
        RecentGrows(r, log, rid, (r.idx + 1) % n);
      }
    }
  }

  lemma RecentShifts(log: seq<Insertion>, x: Insertion)
    ensures |Recent(log)| == if |log| < RID_CACHE_SIZE then |log| else RID_CACHE_SIZE
    ensures |log| >= RID_CACHE_SIZE ==> Recent(log + [x]) == Recent(log)[1..] + [x]
    ensures |log| < RID_CACHE_SIZE ==> Recent(log + [x]) == Recent(log) + [x]
  {
  }

  lemma RecentGrows(r: Router, log: seq<Insertion>, rid: Rid, idx: nat)
    requires Mirrors(r, Recent(log)) && rid !in r.server
    ensures var e := Evicted(r);
            Mirrors(Router(e.queue + [rid], e.server[rid := r.idx], idx), Recent(log + [Insertion(rid, r.idx)]))
  {
    var w := Recent(log);
    RecentShifts(log, Insertion(rid, r.idx));
    if |log| >= RID_CACHE_SIZE {
      EvictKeepsMirror(r, w);
      InsertKeepsMirror(Evicted(r), w[1..], rid, r.idx, idx);
    } else {
      assert |r.queue| == |log|;
      InsertKeepsMirror(r, w, rid, r.idx, idx);
    }
  }

  /** A cached request keeps its server until 128 other requests have been inserted after it. */
  lemma StickyUntilEvicted(n: nat, start: nat, rids: seq<Rid>, k: nat)
    requires n > 0
    requires var log := Insertions(n, start, rids); k < |log| && |log| - k <= RID_CACHE_SIZE
    ensures var log := Insertions(n, start, rids);
            var r := RouteAll(n, start, rids);
            log[k].rid in r.server && r.server[log[k].rid] == log[k].server
  {
    CacheIsTheRecentInsertions(n, start, rids);
    var log := Insertions(n, start, rids);
    var w := Recent(log);
    var i := if |log| <= RID_CACHE_SIZE then k else k - (|log| - RID_CACHE_SIZE);
    assert w[i] == log[k];
  }

  // ---------------------------------------------------------------- round robin

  lemma InsertionsUnfold(n: nat, start: nat, rest: seq<Rid>, rid: Rid)
    requires n > 0
    ensures var before := RouteAll(n, start, rest);
            && RouteAll(n, start, rest + [rid]) == Route(n, before, rid)
            && Insertions(n, start, rest + [rid])
            == Insertions(n, start, rest) + (if rid in before.server then [] else [Insertion(rid, before.idx)])
  {
    assert (rest + [rid])[..|rest|] == rest;
  }

  /** The insertions so far were given the servers in turn, and `idx` is the next one. */
  ghost predicate InTurn(n: nat, start: nat, log: seq<Insertion>, idx: nat)
    requires n > 0
  {
    idx == (start + |log|) % n && forall k :: 0 <= k < |log| ==> log[k].server == (start + k) % n
  }

  lemma InTurnGrows(n: nat, start: nat, log: seq<Insertion>, idx: nat, rid: Rid)
    requires n > 0 && InTurn(n, start, log, idx)
    ensures InTurn(n, start, log + [Insertion(rid, idx)], (idx + 1) % n)
  {
    NextIndex(start + |log|, n);
  }

  /** The k-th insertion gets server (start + k) mod n. */
  lemma {:induction false} RoundRobin(n: nat, start: nat, rids: seq<Rid>)
    requires n > 0 && start < n
    ensures InTurn(n, start, Insertions(n, start, rids), RouteAll(n, start, rids).idx)
  {
    if rids == [] {
      DivMod(start, 0, start, n);
    } else {
      var rest, rid := rids[..|rids| - 1], rids[|rids| - 1];
      assert rids == rest + [rid];
      RoundRobin(n, start, rest);
      InsertionsUnfold(n, start, rest, rid);
      if rid in RouteAll(n, start, rest).server {
        assert Insertions(n, start, rids) == Insertions(n, start, rest);
      } else {
        InTurnGrows(n, start, Insertions(n, start, rest), RouteAll(n, start, rest).idx, rid);
      }
    }
  }

  lemma NextIndex(m: nat, n: nat)
    requires n > 0
    ensures (m % n + 1) % n == (m + 1) % n
  {
    var q, r := m / n, m % n;
    assert m == q * n + r;
    if r + 1 < n {
      DivMod(m + 1, q, r + 1, n);
      DivMod(r + 1, 0, r + 1, n);
    } else {
      assert (q + 1) * n == q * n + n;
      DivMod(m + 1, q + 1, 0, n);
      DivMod(r + 1, 1, 0, n);
    }
  }

  /** How often server `j` is chosen in `k` insertions. */
  function Chosen(n: nat, start: nat, k: nat, j: nat): nat
    requires n > 0
  {
    if k == 0 then 0 else Chosen(n, start, k - 1, j) + (if (start + (k - 1)) % n == j then 1 else 0)
  }

  /** The offset at which server `j` comes up. */
  function Offset(n: nat, start: nat, j: nat): nat
    requires start < n && j < n
  {
    if j >= start then j - start else j + n - start
  }

  lemma ComesUpAt(n: nat, start: nat, q: nat, r: nat, j: nat)
    requires start < n && j < n && r < n
    ensures (start + (q * n + r)) % n == j <==> r == Offset(n, start, j)
  {
    if start + r < n {
      DivMod(start + (q * n + r), q, start + r, n);
    } else {
      DivMod(start + (q * n + r), q + 1, start + r - n, n);
    }
  }

  lemma ChosenNext(n: nat, start: nat, k: nat, q: nat, r: nat, j: nat)
    requires start < n && j < n && r < n && k == q * n + r
    ensures Chosen(n, start, k + 1, j) == Chosen(n, start, k, j) + (if r == Offset(n, start, j) then 1 else 0)
  {
    ComesUpAt(n, start, q, r, j);
  }

  lemma {:induction false} ChosenExactly(n: nat, start: nat, k: nat, q: nat, r: nat, j: nat)
    requires start < n && j < n && r < n && k == q * n + r
    ensures Chosen(n, start, k, j) == q + (if Offset(n, start, j) < r then 1 else 0)
    decreases q, r
  {
    if k == 0 {
      PositiveProduct(q, n);
    } else if r > 0 {
      ChosenExactly(n, start, k - 1, q, r - 1, j);
      ChosenNext(n, start, k - 1, q, r - 1, j);
    } else {
      assert k - 1 == (q - 1) * n + (n - 1);
      ChosenExactly(n, start, k - 1, q - 1, n - 1, j);
      ChosenNext(n, start, k - 1, q - 1, n - 1, j);
    }
  }

  /** How many of these insertions were given server `j`. */
  function Served(log: seq<Insertion>, j: nat): nat {
    if log == [] then 0 else Served(log[..|log| - 1], j) + (if log[|log| - 1].server == j then 1 else 0)
  }

  lemma {:induction false} ServedInTurn(n: nat, start: nat, log: seq<Insertion>, j: nat)
    requires n > 0 && forall k :: 0 <= k < |log| ==> log[k].server == (start + k) % n
    ensures Served(log, j) == Chosen(n, start, |log|, j)
  {
    if log == [] {
    } else {
      ServedInTurn(n, start, log[..|log| - 1], j);
    }
  }

  lemma ChosenFairly(n: nat, start: nat, k: nat, i: nat, j: nat)
    requires start < n && i < n && j < n
    ensures -1 <= Chosen(n, start, k, i) - Chosen(n, start, k, j) <= 1
  {
    var q, r := k / n, k % n;
    assert k == q * n + r;
    ChosenExactly(n, start, k, q, r, i);
    ChosenExactly(n, start, k, q, r, j);
  }

  /** Over fixed servers the numbers of insertions that two servers were given never differ by more than one,
  after any requests and from any start index. */
  lemma RoundRobinIsFair(n: nat, start: nat, rids: seq<Rid>, i: nat, j: nat)
    requires start < n && i < n && j < n
    ensures var log := Insertions(n, start, rids);
            -1 <= Served(log, i) - Served(log, j) <= 1
  {
    var log := Insertions(n, start, rids);
    RoundRobin(n, start, rids);
    ServedInTurn(n, start, log, i);
    ServedInTurn(n, start, log, j);
    ChosenFairly(n, start, |log|, i, j);
  }
}
