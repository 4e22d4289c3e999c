/** The sort keys of areal/tools/perf_trace_converter.py and the order they induce on process, thread and
flow keys. */
module TraceOrder {
  import opened Wrappers

  /** An identifier in a trace: an integer or a string. */
  datatype Id = Int(n: int) | Text(s: string)

  /** What identifies a process or a flow, or with `tid` a thread. */
  datatype Key = Key(rank: Id, role: Option<string>, id: Id, tid: Option<Id>)

  // ---------------------------------------------------------------- sort keys

  /** A tuple of numbers and strings as one sequence of numbers, in the same order: -1 ends a string. */
  function Codes(s: string): seq<int> { if s == "" then [-1] else [s[0] as int] + Codes(s[1..]) }

  function RankCode(rank: Id): seq<int> {
    match rank
    case Int(n) => [0, n]
    case Text(s) => [1] + Codes(s)
  }

  function RoleCode(role: Option<string>): seq<int> {
    match role
    case None => [1] + Codes("")
    case Some(r) => [0] + Codes(r)
  }

  function ValueCode(id: Id): seq<int> {
    match id
    case Int(n) => [1, n]
    case Text(s) => [3] + Codes(s)
  }

  /** Threads: natural numbers, then negative numbers by magnitude, then strings. */
  function TidCode(tid: Id): seq<int> {
    match tid
    case Int(n) => if n < 0 then [2, 0 - n] else [1, n]
    case Text(s) => [4] + Codes(s)
  }

  function GroupCode(k: Key): seq<int> { RankCode(k.rank) + RoleCode(k.role) }

  function Code(k: Key): seq<int> {
    GroupCode(k) + ValueCode(k.id) + if k.tid.Some? then TidCode(k.tid.value) else []
  }

  // ---------------------------------------------------------------- the order

  predicate Less(a: seq<int>, b: seq<int>) {
    b != [] && (a == [] || a[0] < b[0] || (a[0] == b[0] && Less(a[1..], b[1..])))
  }

  /** `a` and `b` differ at a place that both have. */
  predicate Diverge(a: seq<int>, b: seq<int>) {
    a != [] && b != [] && (a[0] != b[0] || Diverge(a[1..], b[1..]))
  }

  lemma {:induction false} LessIsTransitive(a: seq<int>, b: seq<int>, c: seq<int>)
    requires Less(a, b) && Less(b, c)
    ensures Less(a, c)
  {
    if a == [] || a[0] != b[0] || b[0] != c[0] {
    } else {
      LessIsTransitive(a[1..], b[1..], c[1..]);
    }
  }

  lemma {:induction false} LessIsAsymmetric(a: seq<int>, b: seq<int>)
    requires Less(a, b)
    ensures !Less(b, a)
  {
    if a == [] || a[0] != b[0] {
    } else {
      LessIsAsymmetric(a[1..], b[1..]);
    }
  }

  /** Where the first parts diverge, the rest does not matter. */
  lemma {:induction false} DivergenceDecides(a: seq<int>, b: seq<int>, x: seq<int>, y: seq<int>)
    requires Diverge(a, b)
    ensures Diverge(a + x, b + y) && (Less(a, b) || Less(b, a))
    ensures (Less(a + x, b + y) <==> Less(a, b)) && (Less(b + y, a + x) <==> Less(b, a))
  {
    assert (a + x)[1..] == a[1..] + x && (b + y)[1..] == b[1..] + y;
    if a[0] != b[0] {
    } else {
      DivergenceDecides(a[1..], b[1..], x, y);
    }
  }

  lemma {:induction false} SamePrefix(p: seq<int>, x: seq<int>, y: seq<int>)
    ensures Less(p + x, p + y) <==> Less(x, y)
    ensures Diverge(p + x, p + y) <==> Diverge(x, y)
  {
    if p == [] {
      assert p + x == x && p + y == y;
    } else {
      assert (p + x)[1..] == p[1..] + x && (p + y)[1..] == p[1..] + y;
      SamePrefix(p[1..], x, y);
    }
  }

  lemma {:induction false} StringsDiverge(s: string, t: string)
    requires s != t
    ensures Diverge(Codes(s), Codes(t))
  {
    if s == "" || t == "" || s[0] != t[0] {
    } else {
      StringsDiverge(s[1..], t[1..]);
      SamePrefix([s[0] as int], Codes(s[1..]), Codes(t[1..]));
    }
  }

  lemma RanksDiverge(a: Id, b: Id)
    requires a != b
    ensures Diverge(RankCode(a), RankCode(b)) && Diverge(ValueCode(a), ValueCode(b)) && Diverge(TidCode(a), TidCode(b))
  {
    if a.Text? && b.Text? {
      StringsDiverge(a.s, b.s);
      SamePrefix([1], Codes(a.s), Codes(b.s));
      SamePrefix([3], Codes(a.s), Codes(b.s));
      SamePrefix([4], Codes(a.s), Codes(b.s));
    }
  }

  lemma RolesDiverge(a: Option<string>, b: Option<string>)
    requires a != b
    ensures Diverge(RoleCode(a), RoleCode(b))
  {
    if a.Some? && b.Some? {
      StringsDiverge(a.value, b.value);
      SamePrefix([0], Codes(a.value), Codes(b.value));
    }
  }

  lemma GroupsDiverge(a: Key, b: Key)
    requires a.rank != b.rank || a.role != b.role
    ensures Diverge(GroupCode(a), GroupCode(b))
  {
    if a.rank != b.rank {
      RanksDiverge(a.rank, b.rank);
      DivergenceDecides(RankCode(a.rank), RankCode(b.rank), RoleCode(a.role), RoleCode(b.role));
    } else {
      RolesDiverge(a.role, b.role);
      SamePrefix(RankCode(a.rank), RoleCode(a.role), RoleCode(b.role));
    }
  }

  predicate Before(a: Key, b: Key) { Less(Code(a), Code(b)) }

  /** The order of keys: by rank and role; then by process or flow; then by thread. */
  lemma BeforeByParts(a: Key, b: Key)
    requires a.tid.Some? == b.tid.Some?
    ensures a.rank != b.rank || a.role != b.role ==> (Before(a, b) <==> Less(GroupCode(a), GroupCode(b)))
    ensures a.rank == b.rank && a.role == b.role && a.id != b.id ==>
            (Before(a, b) <==> Less(ValueCode(a.id), ValueCode(b.id)))
    ensures a.rank == b.rank && a.role == b.role && a.id == b.id && a.tid.Some? ==>
              (Before(a, b) <==> Less(TidCode(a.tid.value), TidCode(b.tid.value)))
    ensures a != b ==> Before(a, b) || Before(b, a)
  {
    var ta, tb := if a.tid.Some? then TidCode(a.tid.value) else [], if b.tid.Some? then TidCode(b.tid.value) else [];
    var va, vb := ValueCode(a.id), ValueCode(b.id);
    Regroup(a);
    Regroup(b);
    if a.rank != b.rank || a.role != b.role {
      GroupsDiverge(a, b);
      DivergenceDecides(GroupCode(a), GroupCode(b), va + ta, vb + tb);
    } else {
      SamePrefix(GroupCode(a), va + ta, vb + tb);
      SamePrefix(GroupCode(a), vb + tb, va + ta);
      if a.id != b.id {
        RanksDiverge(a.id, b.id);
        DivergenceDecides(va, vb, ta, tb);
      } else {
        SamePrefix(va, ta, tb);
        SamePrefix(va, tb, ta);
        if a != b {
          RanksDiverge(a.tid.value, b.tid.value);
          DivergenceDecides(ta, tb, [], []);
        }
      }
    }
  }

  // ---------------------------------------------------------------- the order, without sort keys

  /** `s` comes before `t` in a dictionary: after `k` equal characters it ends or has the smaller one. */
  ghost predicate TextLess(s: string, t: string) {
    exists k: nat :: k <= |s| && k < |t| && LessAt(s, t, k)
  }

  predicate LessAt(s: string, t: string, k: nat)
    requires k <= |s| && k < |t|
  {
    s[..k] == t[..k] && (k == |s| || s[k] < t[k])
  }

  lemma {:induction false} TextOrder(s: string, t: string)
    ensures Less(Codes(s), Codes(t)) <==> TextLess(s, t)
  {
    if s == "" || t == "" {
      assert t != "" ==> LessAt("", t, 0);
    } else {
      TextOrder(s[1..], t[1..]);
      SamePrefix([s[0] as int], Codes(s[1..]), Codes(t[1..]));
      TextLessRest(s, t);
    }
  }

  lemma TextLessRest(s: string, t: string)
    requires s != "" && t != ""
    ensures TextLess(s, t) <==> s[0] < t[0] || (s[0] == t[0] && TextLess(s[1..], t[1..]))
  {
    if s[0] < t[0] {
      assert LessAt(s, t, 0);
    }
    if k: nat :| k <= |s| && k < |t| && LessAt(s, t, k) {
      if k > 0 {
        assert s[..k][0] == t[..k][0] && s[..k][1..] == s[1..][..k - 1] && t[..k][1..] == t[1..][..k - 1];
        assert LessAt(s[1..], t[1..], k - 1);
      }
    }
    if k: nat :| s[0] == t[0] && k <= |s[1..]| && k < |t[1..]| && LessAt(s[1..], t[1..], k) {
      assert s[..k + 1] == [s[0]] + s[1..][..k] && t[..k + 1] == [t[0]] + t[1..][..k];
      assert LessAt(s, t, k + 1);
    }
  }

  /** Ranks, processes and flows: numbers by size, then texts. */
  ghost predicate IdLess(a: Id, b: Id) {
    match (a, b)
    case (Int(m), Int(n)) => m < n
    case (Int(_), Text(_)) => true
    case (Text(_), Int(_)) => false
    case (Text(s), Text(t)) => TextLess(s, t)
  }

  /** Named roles, then events without a role. */
  ghost predicate RoleLess(a: Option<string>, b: Option<string>) {
    a.Some? && (b.None? || TextLess(a.value, b.value))
  }

  /** Threads: natural numbers by size, then negative ones by magnitude, then texts. */
  ghost predicate TidLess(a: Id, b: Id) {
    match (a, b)
    case (Int(m), Int(n)) => if m >= 0 then n < 0 || m < n else n < 0 && m > n
    case (Int(_), Text(_)) => true
    case (Text(_), Int(_)) => false
    case (Text(s), Text(t)) => TextLess(s, t)
  }

  /** By rank, then role, then process or flow, then thread. */
  ghost predicate KeyLess(a: Key, b: Key) {
    || IdLess(a.rank, b.rank)
    || (a.rank == b.rank && RoleLess(a.role, b.role))
    || (a.rank == b.rank && a.role == b.role && IdLess(a.id, b.id))
    || (a.rank == b.rank && a.role == b.role && a.id == b.id && a.tid.Some? && b.tid.Some?
        && TidLess(a.tid.value, b.tid.value))
  }

  lemma NumberOrder(c: int, m: int, n: int)
    ensures Less([c, m], [c, n]) <==> m < n
  {
    SamePrefix([c], [m], [n]);
    assert [c] + [m] == [c, m] && [c] + [n] == [c, n];
  }

  lemma IdOrder(a: Id, b: Id)
    ensures Less(RankCode(a), RankCode(b)) <==> IdLess(a, b)
    ensures Less(ValueCode(a), ValueCode(b)) <==> IdLess(a, b)
    ensures Less(TidCode(a), TidCode(b)) <==> TidLess(a, b)
  {
    if a.Text? && b.Text? {
      TextOrder(a.s, b.s);
      SamePrefix([1], Codes(a.s), Codes(b.s));
      SamePrefix([3], Codes(a.s), Codes(b.s));
      SamePrefix([4], Codes(a.s), Codes(b.s));
    } else if a.Int? && b.Int? {
      NumberOrder(0, a.n, b.n);
      NumberOrder(1, a.n, b.n);
      NumberOrder(2, 0 - a.n, 0 - b.n);
    }
  }

  lemma RoleOrder(a: Option<string>, b: Option<string>)
    ensures Less(RoleCode(a), RoleCode(b)) <==> RoleLess(a, b)
  {
    if a.Some? && b.Some? {
      TextOrder(a.value, b.value);
      SamePrefix([0], Codes(a.value), Codes(b.value));
    } else if a == b && Less(RoleCode(a), RoleCode(b)) {
      LessIsAsymmetric(RoleCode(a), RoleCode(b));
    }
  }

  lemma GroupOrder(a: Key, b: Key)
    requires a.rank != b.rank || a.role != b.role
    ensures Less(GroupCode(a), GroupCode(b)) <==>
            IdLess(a.rank, b.rank) || (a.rank == b.rank && RoleLess(a.role, b.role))
  {
    if a.rank != b.rank {
      RanksDiverge(a.rank, b.rank);
      IdOrder(a.rank, b.rank);
      DivergenceDecides(RankCode(a.rank), RankCode(b.rank), RoleCode(a.role), RoleCode(b.role));
    } else {
      RoleOrder(a.role, b.role);
      SamePrefix(RankCode(a.rank), RoleCode(a.role), RoleCode(b.role));
      NotLessThanItself(a.rank);
    }
  }

  lemma NotLessThanItself(a: Id)
    ensures !IdLess(a, a)
  {
    IdOrder(a, a);
    if Less(RankCode(a), RankCode(a)) {
      LessIsAsymmetric(RankCode(a), RankCode(a));
    }
  }

  lemma RoleNotLessThanItself(a: Option<string>)
    ensures !RoleLess(a, a)
  {
    RoleOrder(a, a);
    if Less(RoleCode(a), RoleCode(a)) {
      LessIsAsymmetric(RoleCode(a), RoleCode(a));
    }
  }

  /** The sort keys order by rank, role, process or flow, and thread. */
  lemma KeysInOrder(a: Key, b: Key)
    requires a.tid.Some? == b.tid.Some?
    ensures Before(a, b) <==> KeyLess(a, b)
    ensures a != b ==> KeyLess(a, b) || KeyLess(b, a)
  {
    BeforeByParts(a, b);
    BeforeByParts(b, a);
    KeyOrder(a, b);
    KeyOrder(b, a);
  }

  lemma KeyOrder(a: Key, b: Key)
    requires a.tid.Some? == b.tid.Some?
    ensures Before(a, b) <==> KeyLess(a, b)
  {
    BeforeByParts(a, b);
    if a.rank != b.rank || a.role != b.role {
      GroupOrder(a, b);
    } else {
      NotLessThanItself(a.rank);
      NotLessThanItself(a.id);
      RoleNotLessThanItself(a.role);
      IdOrder(a.id, b.id);
      if a.tid.Some? {
        IdOrder(a.tid.value, b.tid.value);
      } else if a.id == b.id && Before(a, b) {
        LessIsAsymmetric(Code(a), Code(b));
      }
    }
  }

  lemma Regroup(k: Key)
    ensures Code(k) == GroupCode(k) + (ValueCode(k.id) + if k.tid.Some? then TidCode(k.tid.value) else [])
  {
  }

  // ---------------------------------------------------------------- sets of keys

  /** Keys of one sort: processes or flows, or threads. */
  predicate Alike(s: set<Key>) { forall a, b :: a in s && b in s ==> a.tid.Some? == b.tid.Some? }

  predicate IsLeast(m: Key, s: set<Key>) { m in s && forall k :: k in s && k != m ==> Before(m, k) }

  lemma {:induction false} HasLeast(s: set<Key>)
    requires s != {} && Alike(s)
    ensures exists m :: IsLeast(m, s)
    decreases |s|
  {
    var x :| x in s;
    var rest := s - {x};
    if rest == {} {
      assert forall k :: k in s ==> k == x || k in rest;
      assert IsLeast(x, s);
    } else {
      HasLeast(rest);
      var m :| IsLeast(m, rest);
      BeforeByParts(x, m);
      if Before(x, m) {
        forall k | k in s && k != x ensures Before(x, k) {
          assert k in rest;
          if k != m {
            LessIsTransitive(Code(x), Code(m), Code(k));
          }
        }
        assert IsLeast(x, s);
      } else {
        assert IsLeast(m, s);
      }
    }
  }

  lemma OneLeast(s: set<Key>)
    ensures forall m, m' :: IsLeast(m, s) && IsLeast(m', s) ==> m == m'
  {
    forall m, m' | IsLeast(m, s) && IsLeast(m', s) ensures m == m' {
      if m != m' {
        LessIsAsymmetric(Code(m), Code(m'));
      }
    }
  }

  /** `sorted(s, key=...)`. */
  function Sorted(s: set<Key>): (q: seq<Key>)
    requires Alike(s)
    decreases |s|
  {
    if s == {} then []
    else
      HasLeast(s);
      OneLeast(s);
      var m :| IsLeast(m, s);
      [m] + Sorted(s - {m})
  }

  /** The keys of `s` that come before `k`. */
  function Below(s: set<Key>, k: Key): set<Key> { set x | x in s && Before(x, k) }

  lemma {:induction false} SortedHasAll(s: set<Key>)
    requires Alike(s)
    ensures |Sorted(s)| == |s| && forall k :: k in s <==> k in Sorted(s)
    decreases |s|
  {
    if s == {} {
    } else {
      var m := Sorted(s)[0];
      assert IsLeast(m, s) && Sorted(s)[1..] == Sorted(s - {m}) by { SortedUnfolds(s); }
      SortedHasAll(s - {m});
    }
  }

  lemma SortedUnfolds(s: set<Key>)
    requires s != {} && Alike(s)
    ensures Sorted(s) != [] && IsLeast(Sorted(s)[0], s) && Sorted(s)[1..] == Sorted(s - {Sorted(s)[0]})
  {
    HasLeast(s);
    OneLeast(s);
  }

  function Elements(q: seq<Key>): set<Key> { set k | k in q }

  /** The place of a key is the number of keys before it, and those are at the earlier places. */
  lemma {:induction false} PlaceIsCount(s: set<Key>, i: nat)
    requires Alike(s) && i < |Sorted(s)|
    ensures |Below(s, Sorted(s)[i])| == i && Below(s, Sorted(s)[i]) == Elements(Sorted(s)[..i])
    decreases |s|
  {
    SortedUnfolds(s);
    var m := Sorted(s)[0];
    if i == 0 {
      NothingBelowLeast(s, m);
    } else {
      var rest := Sorted(s - {m});
      assert Sorted(s) == [m] + rest;
      PlaceIsCount(s - {m}, i - 1);
      SortedHasAll(s - {m});
      PlaceInRest(s, m, rest, i);
    }
  }

  lemma PlaceInRest(s: set<Key>, m: Key, rest: seq<Key>, i: nat)
    requires IsLeast(m, s) && 0 < i <= |rest| && rest[i - 1] in s - {m}
    requires |Below(s - {m}, rest[i - 1])| == i - 1 && Below(s - {m}, rest[i - 1]) == Elements(rest[..i - 1])
    ensures var q := [m] + rest;
            |Below(s, q[i])| == i && Below(s, q[i]) == Elements(q[..i])
  {
    var q := [m] + rest;
    BelowInRest(s, m, rest[i - 1]);
    TakeOfCons(m, rest, i);
    ElementsOfCons(m, rest[..i - 1]);
  }

  lemma TakeOfCons(m: Key, rest: seq<Key>, i: nat)
    requires 0 < i <= |rest|
    ensures ([m] + rest)[i] == rest[i - 1] && ([m] + rest)[..i] == [m] + rest[..i - 1]
  {
  }

  lemma ElementsOfCons(m: Key, rest: seq<Key>)
    ensures Elements([m] + rest) == {m} + Elements(rest)
  {
    forall k ensures k in Elements([m] + rest) <==> k in {m} + Elements(rest) {
    }
  }

  lemma NothingBelowLeast(s: set<Key>, m: Key)
    requires IsLeast(m, s)
    ensures Below(s, m) == {}
  {
    forall k | k in s ensures !Before(k, m) {
      if k != m {
        LessIsAsymmetric(Code(m), Code(k));
      } else if Before(m, m) {
        LessIsAsymmetric(Code(m), Code(m));
      }
    }
  }

  lemma BelowInRest(s: set<Key>, m: Key, k: Key)
    requires IsLeast(m, s) && k in s - {m}
    ensures Below(s, k) == {m} + Below(s - {m}, k) && |Below(s, k)| == |Below(s - {m}, k)| + 1
  {
    assert Before(m, k);
  }

  /** `q` lists `s` in order. */
  ghost predicate Lists(q: seq<Key>, s: set<Key>) {
    Elements(q) == s && forall i :: 0 <= i < |q| ==> |Below(s, q[i])| == i && Below(s, q[i]) == Elements(q[..i])
  }

  method Sort(s: set<Key>) returns (q: seq<Key>)
    requires Alike(s)
    ensures Lists(q, s)
  {
    q := Sorted(s);
    SortedHasAll(s);
    forall i | 0 <= i < |q| ensures |Below(s, q[i])| == i && Below(s, q[i]) == Elements(q[..i]) {
      PlaceIsCount(s, i);
    }
  }

  lemma OneMoreElement(q: seq<Key>, i: nat)
    requires i < |q|
    ensures Elements(q[..i + 1]) == Elements(q[..i]) + {q[i]}
  {
    assert q[..i + 1] == q[..i] + [q[i]];
    forall k ensures k in Elements(q[..i] + [q[i]]) <==> k in Elements(q[..i]) + {q[i]} {
    }
  }
}
