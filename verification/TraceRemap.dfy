/** Renumbering processes, threads and flows of a merged trace: areal/tools/perf_trace_converter.py. */
module TraceRemap {
  import opened Wrappers
  import opened TraceOrder

  /** What the pass reads of an event. `flow` is the id of an event of phase s, t or f, and `correlation` the
  argument of that name. */
  datatype Event = Event(rank: Option<Id>, role: Option<string>, pid: Option<Id>, tid: Option<Id>,
                         flow: Option<Id>, correlation: Option<Id>)

  // ---------------------------------------------------------------- the new numbers

  /** Events without rank or process are left alone. */
  predicate Located(e: Event) { e.rank.Some? && e.pid.Some? }

  function PidKey(e: Event): Key
    requires Located(e)
  {
    Key(e.rank.value, e.role, e.pid.value, None)
  }

  function TidKey(e: Event): Key
    requires Located(e) && e.tid.Some?
  {
    Key(e.rank.value, e.role, e.pid.value, e.tid)
  }

  function PidKeys(es: seq<Event>): (s: set<Key>)
    ensures Alike(s) && forall k :: k in s ==> k.tid.None?
  {
    set i | 0 <= i < |es| && Located(es[i]) :: PidKey(es[i])
  }

  function TidKeys(es: seq<Event>): (s: set<Key>)
    ensures Alike(s) && forall k :: k in s ==> k.tid.Some?
  {
    set i | 0 <= i < |es| && Located(es[i]) && es[i].tid.Some? :: TidKey(es[i])
  }

  function Owner(k: Key): Key { k.(tid := None) }

  /** The threads of the process of `k`. */
  function Siblings(tids: set<Key>, k: Key): set<Key> { set x | x in tids && Owner(x) == Owner(k) }

  /** Processes are numbered from 1 in their order. */
  function NewPid(pids: set<Key>, k: Key): nat { 1 + |Below(pids, k)| }

  /** The threads of a process are numbered in their order, from the number of the process. */
  function NewTid(pids: set<Key>, tids: set<Key>, k: Key): nat {
    NewPid(pids, Owner(k)) + |Below(Siblings(tids, k), k)|
  }

  function Renumber(e: Event, pids: set<Key>, tids: set<Key>): Event {
    if !Located(e) then e
    else
      e.(pid := Some(Int(NewPid(pids, PidKey(e)))),
         tid := if e.tid.None? then None else Some(Int(NewTid(pids, tids, TidKey(e)))))
  }

  function RenumberAll(es: seq<Event>): (r: seq<Event>)
    ensures |r| == |es| && forall i :: 0 <= i < |es| ==> r[i] == Renumber(es[i], PidKeys(es), TidKeys(es))
  {
    seq(|es|, i requires 0 <= i < |es| => Renumber(es[i], PidKeys(es), TidKeys(es)))
  }

  // ---------------------------------------------------------------- the pass in place

  /** How many of these threads belong to a process. */
  function Owned(q: seq<Key>, owner: Key): nat {
    if q == [] then 0 else Owned(q[..|q| - 1], owner) + (if Owner(q[|q| - 1]) == owner then 1 else 0)
  }

  function OwnedSet(q: seq<Key>, owner: Key): set<Key> { set k | k in Elements(q) && Owner(k) == owner }

  lemma {:induction false} OwnedIsCount(q: seq<Key>, n: nat, owner: Key)
    requires n <= |q| && forall i, j :: 0 <= i < j < |q| ==> q[i] != q[j]
    ensures Owned(q[..n], owner) == |OwnedSet(q[..n], owner)|
  {
    if n == 0 {
      assert OwnedSet(q[..n], owner) == {};
    } else {
      OwnedIsCount(q, n - 1, owner);
      OneMoreOwned(q, n - 1, owner);
      OneMoreInSet(q, n - 1, owner);
    }
  }

  lemma OneMoreInSet(q: seq<Key>, i: nat, owner: Key)
    requires i < |q| && forall j :: 0 <= j < i ==> q[j] != q[i]
    ensures OwnedSet(q[..i + 1], owner) == OwnedSet(q[..i], owner) + (if Owner(q[i]) == owner then {q[i]} else {})
    ensures q[i] !in OwnedSet(q[..i], owner)
  {
    OneMoreElement(q, i);
    assert q[i] !in q[..i];
  }

  /** The counter of the process gives the number of the thread. */
  lemma CounterIsNewTid(pids: set<Key>, tids: set<Key>, q: seq<Key>, i: nat)
    requires Lists(q, tids) && i < |q|
    ensures NewTid(pids, tids, q[i]) == NewPid(pids, Owner(q[i])) + Owned(q[..i], Owner(q[i]))
  {
    var k := q[i];
    forall a, b | 0 <= a < b < |q| ensures q[a] != q[b] {
      assert |Below(tids, q[a])| == a && |Below(tids, q[b])| == b;
    }
    OwnedIsCount(q, i, Owner(k));
    assert Below(Siblings(tids, k), k) == OwnedSet(q[..i], Owner(k));
  }

  lemma OneMoreOwned(q: seq<Key>, i: nat, owner: Key)
    requires i < |q|
    ensures Owned(q[..i + 1], owner) == Owned(q[..i], owner) + (if Owner(q[i]) == owner then 1 else 0)
  {
    assert q[..i + 1][..i] == q[..i];
  }

  method Collect(events: array<Event>) returns (pids: set<Key>, tids: set<Key>)
    ensures pids == PidKeys(events[..]) && tids == TidKeys(events[..])
  {
    pids, tids := {}, {};
    for i := 0 to events.Length
      invariant pids == PidKeys(events[..i]) && tids == TidKeys(events[..i])
    {
      var e := events[i];
      OneMoreEvent(events[..i], e);
      assert events[..i + 1] == events[..i] + [e];
      if e.rank.None? || e.pid.None? { continue; }
      pids := pids + {PidKey(e)};
      if e.tid.Some? { tids := tids + {TidKey(e)}; }
    }
    assert events[..events.Length] == events[..];
  }

  lemma OneMoreEvent(es: seq<Event>, e: Event)
    ensures PidKeys(es + [e]) == PidKeys(es) + (if Located(e) then {PidKey(e)} else {})
    ensures TidKeys(es + [e]) == TidKeys(es) + (if Located(e) && e.tid.Some? then {TidKey(e)} else {})
  {
    var all := es + [e];
    assert all[|es|] == e && forall i :: 0 <= i < |es| ==> all[i] == es[i];
    forall k | k in PidKeys(es) ensures k in PidKeys(all) {
      var i :| 0 <= i < |es| && Located(es[i]) && PidKey(es[i]) == k;
      assert all[i] == es[i];
    }
    forall k | k in TidKeys(es) ensures k in TidKeys(all) {
      var i :| 0 <= i < |es| && Located(es[i]) && es[i].tid.Some? && TidKey(es[i]) == k;
      assert all[i] == es[i];
    }
  }

  /** The new number of every process. */
  method NumberPids(pids: set<Key>) returns (pidMap: map<Key, nat>)
    requires Alike(pids)
    ensures NumbersPids(pidMap, pids)
  {
    var sorted := Sort(pids);
    pidMap := map[];
    for i := 0 to |sorted|
      invariant pidMap.Keys == Elements(sorted[..i])
      invariant forall k :: k in pidMap ==> pidMap[k] == NewPid(pids, k)
    {
      OneMoreElement(sorted, i);
      pidMap := pidMap[sorted[i] := i + 1];
    }
    assert sorted[..|sorted|] == sorted;
  }

  /** `tid_counters.get(new_pid, new_pid)` */
  function Counter(counters: map<nat, nat>, newPid: nat): nat {
    if newPid in counters then counters[newPid] else newPid
  }

  ghost predicate CountersHold(counters: map<nat, nat>, pidMap: map<Key, nat>, q: seq<Key>) {
    forall p :: p in pidMap ==> Counter(counters, pidMap[p]) == pidMap[p] + Owned(q, p)
  }

  ghost predicate Injective(m: map<Key, nat>) { forall a, b :: a in m && b in m && a != b ==> m[a] != m[b] }

  lemma CountOne(counters: map<nat, nat>, pidMap: map<Key, nat>, q: seq<Key>, i: nat)
    requires Injective(pidMap) && i < |q| && Owner(q[i]) in pidMap && CountersHold(counters, pidMap, q[..i])
    ensures var newPid := pidMap[Owner(q[i])];
            CountersHold(counters[newPid := Counter(counters, newPid) + 1], pidMap, q[..i + 1])
  {
    forall p | p in pidMap ensures Owned(q[..i + 1], p) == Owned(q[..i], p) + (if Owner(q[i]) == p then 1 else 0) {
      OneMoreOwned(q, i, p);
    }
  }

  ghost predicate NumbersPids(pidMap: map<Key, nat>, pids: set<Key>) {
    pidMap.Keys == pids && forall k :: k in pids ==> pidMap[k] == NewPid(pids, k)
  }

  ghost predicate NumbersTids(tidMap: map<Key, nat>, some: set<Key>, pids: set<Key>, tids: set<Key>) {
    tidMap.Keys == some && forall k :: k in some ==> tidMap[k] == NewTid(pids, tids, k)
  }

  lemma NumberOne(counters: map<nat, nat>, tidMap: map<Key, nat>, pids: set<Key>, tids: set<Key>,
                  pidMap: map<Key, nat>, q: seq<Key>, i: nat)
    requires Lists(q, tids) && i < |q| && NumbersPids(pidMap, pids) && Injective(pidMap) && Owner(q[i]) in pids
    requires CountersHold(counters, pidMap, q[..i]) && NumbersTids(tidMap, Elements(q[..i]), pids, tids)
    ensures var next := Counter(counters, pidMap[Owner(q[i])]);
            && CountersHold(counters[pidMap[Owner(q[i])] := next + 1], pidMap, q[..i + 1])
            && NumbersTids(tidMap[q[i] := next], Elements(q[..i + 1]), pids, tids)
  {
    CounterIsNewTid(pids, tids, q, i);
    CountOne(counters, pidMap, q, i);
    OneMoreElement(q, i);
    Extends(tidMap, Elements(q[..i]), pids, tids, q[i], Counter(counters, pidMap[Owner(q[i])]));
  }

  lemma Extends(tidMap: map<Key, nat>, some: set<Key>, pids: set<Key>, tids: set<Key>, k: Key, n: nat)
    requires NumbersTids(tidMap, some, pids, tids) && n == NewTid(pids, tids, k)
    ensures NumbersTids(tidMap[k := n], some + {k}, pids, tids)
  {
  }

  /** The new number of every thread, from one counter for each process. */
  method NumberTids(pids: set<Key>, tids: set<Key>, pidMap: map<Key, nat>) returns (tidMap: map<Key, nat>)
    requires Alike(tids) && NumbersPids(pidMap, pids) && Injective(pidMap)
    requires forall k :: k in tids ==> Owner(k) in pids
    ensures NumbersTids(tidMap, tids, pids, tids)
  {
    var sorted := Sort(tids);
    tidMap := map[];
    var counters: map<nat, nat> := map[];
    for i := 0 to |sorted|
      invariant NumbersTids(tidMap, Elements(sorted[..i]), pids, tids)
      invariant CountersHold(counters, pidMap, sorted[..i])
    {
      var k := sorted[i];
      assert k in Elements(sorted);
      NumberOne(counters, tidMap, pids, tids, pidMap, sorted, i);
      var newPid := pidMap[Owner(k)];
      var next := Counter(counters, newPid);
      counters := counters[newPid := next + 1];
      tidMap := tidMap[k := next];
    }
    assert sorted[..|sorted|] == sorted;
  }

  /** The event as the maps renumber it, with the fallback for a thread that has no number. */
  function Looked(e: Event, pidMap: map<Key, nat>, tidMap: map<Key, nat>): Event
    requires Located(e) ==> PidKey(e) in pidMap
  {
    if !Located(e) then e
    else if e.tid.None? then e.(pid := Some(Int(pidMap[PidKey(e)])))
    else e.(pid := Some(Int(pidMap[PidKey(e)])),
            tid := if TidKey(e) in tidMap then Some(Int(tidMap[TidKey(e)])) else None)
  }

  lemma LookedIsRenumbered(es: seq<Event>, i: nat, pidMap: map<Key, nat>, tidMap: map<Key, nat>)
    requires i < |es| && NumbersPids(pidMap, PidKeys(es)) && NumbersTids(tidMap, TidKeys(es), PidKeys(es), TidKeys(es))
    ensures Located(es[i]) ==> PidKey(es[i]) in pidMap
    ensures Looked(es[i], pidMap, tidMap) == RenumberAll(es)[i]
  {
    assert Located(es[i]) ==> PidKey(es[i]) in PidKeys(es);
    assert Located(es[i]) && es[i].tid.Some? ==> TidKey(es[i]) in TidKeys(es);
  }

  /** `_remap_process_and_thread_ids`. The fallback for an unknown thread does not occur: a thread stays a
  thread. */
  method Remap(events: array<Event>)
    modifies events
    ensures events[..] == RenumberAll(old(events[..]))
  {
    var pids, tids := Collect(events);
    ghost var es := events[..];
    OwnersAreProcesses(es);
    var pidMap := NumberPids(pids);
    forall a, b | a in pids && b in pids && a != b ensures pidMap[a] != pidMap[b] {
      NewPidsDiffer(pids, a, b);
    }
    var tidMap := NumberTids(pids, tids, pidMap);
    for i := 0 to events.Length
      invariant forall j :: 0 <= j < i ==> events[j] == RenumberAll(es)[j]
      invariant forall j :: i <= j < events.Length ==> events[j] == es[j]
    {
      LookedIsRenumbered(es, i, pidMap, tidMap);
      var e := events[i];
      assert e == es[i];
      events[i] := Looked(e, pidMap, tidMap);
    }
  }

  lemma OwnersAreProcesses(es: seq<Event>)
    ensures forall k :: k in TidKeys(es) ==> Owner(k) in PidKeys(es)
  {
    forall k | k in TidKeys(es) ensures Owner(k) in PidKeys(es) {
      var i :| 0 <= i < |es| && Located(es[i]) && es[i].tid.Some? && TidKey(es[i]) == k;
      assert Owner(k) == PidKey(es[i]);
    }
  }

  // ---------------------------------------------------------------- counting preserves the order

  lemma SubsetCount(a: set<Key>, b: set<Key>)
    requires a <= b
    ensures |a| <= |b| && (a != b ==> |a| < |b|)
  {
    assert b == a + (b - a);
    assert |b| == |a| + |b - a|;
  }

  /** Later keys have more keys below them. */
  lemma MoreBelow(s: set<Key>, a: Key, b: Key)
    requires a in s && Before(a, b)
    ensures |Below(s, a)| < |Below(s, b)|
  {
    forall k | k in Below(s, a) ensures k in Below(s, b) {
      LessIsTransitive(Code(k), Code(a), Code(b));
    }
    if Before(a, a) {
      LessIsAsymmetric(Code(a), Code(a));
    }
    assert a in Below(s, b) && a !in Below(s, a);
    SubsetCount(Below(s, a), Below(s, b));
  }

  lemma NewPidsDiffer(pids: set<Key>, a: Key, b: Key)
    requires Alike(pids) && a in pids && b in pids
    ensures NewPid(pids, a) == NewPid(pids, b) <==> a == b
  {
    if a != b {
      BeforeByParts(a, b);
      if Before(a, b) {
        MoreBelow(pids, a, b);
      } else {
        MoreBelow(pids, b, a);
      }
    }
  }

  lemma NewTidsDiffer(pids: set<Key>, tids: set<Key>, a: Key, b: Key)
    requires Alike(tids) && a in tids && b in tids && Owner(a) == Owner(b)
    ensures NewTid(pids, tids, a) == NewTid(pids, tids, b) <==> a == b
  {
    var s := Siblings(tids, a);
    assert s == Siblings(tids, b);
    if a != b {
      BeforeByParts(a, b);
      if Before(a, b) {
        MoreBelow(s, a, b);
      } else {
        MoreBelow(s, b, a);
      }
    }
  }

  predicate SameProcess(e: Event, f: Event) { e.rank == f.rank && e.role == f.role && e.pid == f.pid }

  /** Two events share their new process and thread exactly when they came from the same rank, role, process
  and thread; and no thread is lost. */
  lemma RemapIsInjective(es: seq<Event>, i: nat, j: nat)
    requires i < |es| && j < |es| && Located(es[i]) && Located(es[j])
    ensures var r := RenumberAll(es);
            && (r[i].pid == r[j].pid <==> SameProcess(es[i], es[j]))
            && (r[i].pid == r[j].pid && r[i].tid == r[j].tid <==> SameProcess(es[i], es[j]) && es[i].tid == es[j].tid)
            && (r[i].tid.None? <==> es[i].tid.None?)
  {
    var pids, tids := PidKeys(es), TidKeys(es);
    assert PidKey(es[i]) in pids && PidKey(es[j]) in pids;
    NewPidsDiffer(pids, PidKey(es[i]), PidKey(es[j]));
    if es[i].tid.Some? && es[j].tid.Some? && PidKey(es[i]) == PidKey(es[j]) {
      assert TidKey(es[i]) in tids && TidKey(es[j]) in tids;
      NewTidsDiffer(pids, tids, TidKey(es[i]), TidKey(es[j]));
    }
  }

  /** Only the numbers of processes and threads change, and only of events that have a rank and a process. */
  lemma RemapChangesOnlyNumbers(es: seq<Event>, i: nat)
    requires i < |es|
    ensures var r := RenumberAll(es);
            && r[i] == es[i].(pid := r[i].pid, tid := r[i].tid)
            && (!Located(es[i]) ==> r[i] == es[i])
            && (Located(es[i]) ==> r[i].pid.Some? && r[i].pid.value.Int?)
            && (Located(es[i]) && es[i].tid.Some? ==> r[i].tid.Some? && r[i].tid.value.Int?)
  {
  }

  ghost predicate HasPlace(s: set<Key>, n: int) { exists k :: k in s && 1 + |Below(s, k)| == n }

  /** There is a key with each number from 1 to the number of keys. */
  lemma EveryPlaceIsTaken(s: set<Key>, n: int)
    requires Alike(s)
    ensures HasPlace(s, n) <==> 1 <= n <= |s|
  {
    if 1 <= n <= |s| {
      PlaceIsTaken(s, n - 1);
    }
    if HasPlace(s, n) {
      var k :| k in s && 1 + |Below(s, k)| == n;
      PlaceInRange(s, k);
    }
  }

  lemma PlaceIsTaken(s: set<Key>, i: nat)
    requires Alike(s) && i < |s|
    ensures HasPlace(s, i + 1)
  {
    SortedHasAll(s);
    PlaceIsCount(s, i);
    assert Sorted(s)[i] in s;
  }

  lemma PlaceInRange(s: set<Key>, k: Key)
    requires k in s
    ensures |Below(s, k)| < |s|
  {
    NotBeforeItself(k);
    assert k !in Below(s, k);
    SubsetCount(Below(s, k), s);
  }

  ghost predicate PidIs(es: seq<Event>, i: nat, n: int)
    requires i < |es|
  {
    Located(es[i]) && RenumberAll(es)[i].pid == Some(Int(n))
  }

  lemma PidIsPlace(es: seq<Event>, i: nat, n: int)
    requires i < |es|
    ensures PidIs(es, i, n) <==> Located(es[i]) && 1 + |Below(PidKeys(es), PidKey(es[i]))| == n
    ensures Located(es[i]) ==> PidKey(es[i]) in PidKeys(es)
  {
  }

  lemma ProcessEvent(es: seq<Event>, k: Key) returns (i: nat)
    requires k in PidKeys(es)
    ensures i < |es| && Located(es[i]) && PidKey(es[i]) == k
  {
    i :| 0 <= i < |es| && Located(es[i]) && PidKey(es[i]) == k;
  }

  ghost predicate HasPid(es: seq<Event>, n: int) { exists i :: 0 <= i < |es| && PidIs(es, i, n) }

  /** The processes are numbered from 1 without gaps. */
  lemma PidsAreConsecutive(es: seq<Event>, n: int)
    ensures HasPid(es, n) <==> 1 <= n <= |PidKeys(es)|
  {
    var pids := PidKeys(es);
    EveryPlaceIsTaken(pids, n);
    if HasPlace(pids, n) {
      var k :| k in pids && 1 + |Below(pids, k)| == n;
      var i := ProcessEvent(es, k);
      PidIsPlace(es, i, n);
    }
    if HasPid(es, n) {
      var i :| 0 <= i < |es| && PidIs(es, i, n);
      PidIsPlace(es, i, n);
    }
  }

  ghost predicate TidIs(es: seq<Event>, i: nat, j: nat, n: int)
    requires i < |es| && j < |es|
  {
    Located(es[j]) && es[j].tid.Some? && SameProcess(es[i], es[j]) && RenumberAll(es)[j].tid == Some(Int(n))
  }

  lemma TidNumber(es: seq<Event>, j: nat)
    requires j < |es| && Located(es[j]) && es[j].tid.Some?
    ensures RenumberAll(es)[j].tid == Some(Int(NewTid(PidKeys(es), TidKeys(es), TidKey(es[j]))))
  {
  }

  lemma TidIsPlace(es: seq<Event>, i: nat, j: nat, n: int)
    requires i < |es| && Located(es[i]) && es[i].tid.Some?
    requires j < |es| && Located(es[j]) && es[j].tid.Some?
    ensures var s, p := Siblings(TidKeys(es), TidKey(es[i])), NewPid(PidKeys(es), PidKey(es[i]));
            TidIs(es, i, j, n) <==> TidKey(es[j]) in s && 1 + |Below(s, TidKey(es[j]))| == n - p + 1
  {
    TidNumber(es, j);
    var t := NewTid(PidKeys(es), TidKeys(es), TidKey(es[j]));
    assert TidIs(es, i, j, n) <==> SameProcess(es[i], es[j]) && t == n;
    SiblingsOf(es, i, j);
  }

  lemma ThreadEvent(es: seq<Event>, k: Key) returns (i: nat)
    requires k in TidKeys(es)
    ensures i < |es| && Located(es[i]) && es[i].tid.Some? && TidKey(es[i]) == k
  {
    i :| 0 <= i < |es| && Located(es[i]) && es[i].tid.Some? && TidKey(es[i]) == k;
  }

  ghost predicate HasTid(es: seq<Event>, i: nat, n: int)
    requires i < |es|
  {
    exists j :: 0 <= j < |es| && TidIs(es, i, j, n)
  }

  /** The threads of a process are numbered from its own number without gaps. */
  lemma TidsAreConsecutive(es: seq<Event>, i: nat, n: int)
    requires i < |es| && Located(es[i]) && es[i].tid.Some?
    ensures var p := RenumberAll(es)[i].pid.value.n;
            HasTid(es, i, n) <==> p <= n < p + |Siblings(TidKeys(es), TidKey(es[i]))|
  {
    var s, p := Siblings(TidKeys(es), TidKey(es[i])), NewPid(PidKeys(es), PidKey(es[i]));
    EveryPlaceIsTaken(s, n - p + 1);
    if HasPlace(s, n - p + 1) {
      var k :| k in s && 1 + |Below(s, k)| == n - p + 1;
      var j := ThreadEvent(es, k);
      TidIsPlace(es, i, j, n);
    }
    if HasTid(es, i, n) {
      var j :| 0 <= j < |es| && TidIs(es, i, j, n);
      TidIsPlace(es, i, j, n);
    }
  }

  lemma SiblingsOf(es: seq<Event>, i: nat, j: nat)
    requires i < |es| && Located(es[i]) && es[i].tid.Some?
    requires j < |es| && Located(es[j]) && es[j].tid.Some?
    ensures var pids, tids := PidKeys(es), TidKeys(es);
            && (SameProcess(es[i], es[j]) <==> TidKey(es[j]) in Siblings(tids, TidKey(es[i])))
            && (SameProcess(es[i], es[j]) ==>
                  Siblings(tids, TidKey(es[j])) == Siblings(tids, TidKey(es[i]))
                  && NewTid(pids, tids, TidKey(es[j]))
                     == NewPid(pids, PidKey(es[i])) + |Below(Siblings(tids, TidKey(es[i])), TidKey(es[j]))|)
  {
    assert Owner(TidKey(es[i])) == PidKey(es[i]) && Owner(TidKey(es[j])) == PidKey(es[j]);
    assert TidKey(es[j]) in TidKeys(es);
  }

  lemma CountsInOrder(s: set<Key>, a: Key, b: Key)
    requires Alike(s) && a in s && b in s
    ensures |Below(s, a)| < |Below(s, b)| <==> KeyLess(a, b)
  {
    KeysInOrder(a, b);
    KeysInOrder(b, a);
    NotBeforeItself(a);
    if Before(a, b) {
      MoreBelow(s, a, b);
    } else if a != b {
      MoreBelow(s, b, a);
    }
  }

  /** The new numbers follow the order by rank, role and process, and for the threads of one process the order of
  their threads. */
  lemma RemapKeepsOrder(es: seq<Event>, i: nat, j: nat)
    requires i < |es| && j < |es| && Located(es[i]) && Located(es[j])
    ensures var r := RenumberAll(es);
            && (r[i].pid.value.n < r[j].pid.value.n <==>
                  || IdLess(es[i].rank.value, es[j].rank.value)
                  || (es[i].rank == es[j].rank && RoleLess(es[i].role, es[j].role))
                  || (es[i].rank == es[j].rank && es[i].role == es[j].role
                      && IdLess(es[i].pid.value, es[j].pid.value)))
            && (SameProcess(es[i], es[j]) && es[i].tid.Some? && es[j].tid.Some? ==>
                  (r[i].tid.value.n < r[j].tid.value.n <==> TidLess(es[i].tid.value, es[j].tid.value)))
  {
    assert PidKey(es[i]) in PidKeys(es) && PidKey(es[j]) in PidKeys(es);
    CountsInOrder(PidKeys(es), PidKey(es[i]), PidKey(es[j]));
    if SameProcess(es[i], es[j]) && es[i].tid.Some? && es[j].tid.Some? {
      SiblingsOf(es, i, i);
      SiblingsOf(es, i, j);
      var s, a, b := Siblings(TidKeys(es), TidKey(es[i])), TidKey(es[i]), TidKey(es[j]);
      CountsInOrder(s, a, b);
      NotLessThanItself(a.rank);
      NotLessThanItself(a.id);
      RoleNotLessThanItself(a.role);
    }
  }

  // ---------------------------------------------------------------- the second pass

  function Images(s: set<Key>, f: Key -> Key): set<Key> { set k | k in s :: f(k) }

  ghost predicate KeepsOrder(s: set<Key>, f: Key -> Key) {
    forall a, b :: a in s && b in s && Before(a, b) ==> Before(f(a), f(b))
  }

  lemma {:induction false} ImagesCount(s: set<Key>, f: Key -> Key)
    requires forall a, b :: a in s && b in s && f(a) == f(b) ==> a == b
    ensures |Images(s, f)| == |s|
    decreases |s|
  {
    if s == {} {
      assert Images(s, f) == {};
    } else {
      var x :| x in s;
      ImagesCount(s - {x}, f);
      assert Images(s, f) == Images(s - {x}, f) + {f(x)};
      assert f(x) !in Images(s - {x}, f);
    }
  }

  /** Renumbering that keeps the order keeps the number of keys below. */
  lemma BelowImages(s: set<Key>, f: Key -> Key, k: Key)
    requires Alike(s) && KeepsOrder(s, f) && k in s
    ensures |Below(Images(s, f), f(k))| == |Below(s, k)|
  {
    forall a, b | a in s && b in s ensures (Before(f(a), f(b)) <==> Before(a, b)) && (f(a) == f(b) ==> a == b) {
      OrderReflected(s, f, a, b);
    }
    assert Below(Images(s, f), f(k)) == Images(Below(s, k), f);
    ImagesCount(Below(s, k), f);
  }

  lemma OrderReflected(s: set<Key>, f: Key -> Key, a: Key, b: Key)
    requires Alike(s) && KeepsOrder(s, f) && a in s && b in s
    ensures (Before(f(a), f(b)) <==> Before(a, b)) && (f(a) == f(b) ==> a == b)
  {
    if a != b {
      BeforeByParts(a, b);
      if Before(b, a) {
        LessIsAsymmetric(Code(f(b)), Code(f(a)));
      } else {
        LessIsAsymmetric(Code(f(a)), Code(f(b)));
      }
    } else {
      NotBeforeItself(a);
      NotBeforeItself(f(a));
    }
  }

  lemma NotBeforeItself(k: Key)
    ensures !Before(k, k)
  {
    if Before(k, k) {
      LessIsAsymmetric(Code(k), Code(k));
    }
  }

  function Pass(pids: set<Key>, tids: set<Key>): Key -> Key {
    (k: Key) => Key(k.rank, k.role, Int(NewPid(pids, Owner(k))),
             if k.tid.None? then None else Some(Int(NewTid(pids, tids, k))))
  }

  lemma SmallerNumber(m: int, n: int)
    ensures Less(ValueCode(Int(m)), ValueCode(Int(n))) <==> m < n
    ensures m > 0 && n > 0 ==> (Less(TidCode(Int(m)), TidCode(Int(n))) <==> m < n)
  {
    SamePrefix([1], [m], [n]);
    assert [1] + [m] == [1, m] && [1] + [n] == [1, n];
  }

  /** Both kinds of keys keep their order when they are renumbered. */
  lemma PidsKeepOrder(pids: set<Key>, tids: set<Key>, a: Key, b: Key)
    requires a in pids && b in pids && a.tid.None? && b.tid.None? && Before(a, b)
    ensures Before(Pass(pids, tids)(a), Pass(pids, tids)(b))
  {
    var a', b' := Pass(pids, tids)(a), Pass(pids, tids)(b);
    assert Owner(a) == a && Owner(b) == b;
    MoreBelow(pids, a, b);
    BeforeByParts(a, b);
    BeforeByParts(a', b');
    SmallerNumber(NewPid(pids, a), NewPid(pids, b));
  }

  lemma TidsKeepOrder(pids: set<Key>, tids: set<Key>, a: Key, b: Key)
    requires a in tids && b in tids && a.tid.Some? && b.tid.Some? && Owner(a) == Owner(b) && Before(a, b)
    ensures Before(Pass(pids, tids)(a), Pass(pids, tids)(b))
  {
    var a', b' := Pass(pids, tids)(a), Pass(pids, tids)(b);
    assert Siblings(tids, a) == Siblings(tids, b);
    MoreBelow(Siblings(tids, a), a, b);
    BeforeByParts(a', b');
    SmallerNumber(NewTid(pids, tids, a), NewTid(pids, tids, b));
  }

  lemma PidKeysAfterPass(es: seq<Event>)
    ensures PidKeys(RenumberAll(es)) == Images(PidKeys(es), Pass(PidKeys(es), TidKeys(es)))
  {
    var f, r := Pass(PidKeys(es), TidKeys(es)), RenumberAll(es);
    forall k ensures k in PidKeys(r) <==> k in Images(PidKeys(es), f) {
      if k in PidKeys(r) {
        var i :| 0 <= i < |es| && Located(r[i]) && PidKey(r[i]) == k;
        assert PidKey(es[i]) in PidKeys(es) && f(PidKey(es[i])) == k;
      }
      if k in Images(PidKeys(es), f) {
        var x :| x in PidKeys(es) && f(x) == k;
        var i :| 0 <= i < |es| && Located(es[i]) && PidKey(es[i]) == x;
        assert PidKey(r[i]) == k;
      }
    }
  }

  lemma TidKeysAfterPass(es: seq<Event>)
    ensures TidKeys(RenumberAll(es)) == Images(TidKeys(es), Pass(PidKeys(es), TidKeys(es)))
  {
    var f, r := Pass(PidKeys(es), TidKeys(es)), RenumberAll(es);
    forall k ensures k in TidKeys(r) <==> k in Images(TidKeys(es), f) {
      if k in TidKeys(r) {
        var i :| 0 <= i < |es| && Located(r[i]) && r[i].tid.Some? && TidKey(r[i]) == k;
        ThreadImage(es, i);
      }
      if k in Images(TidKeys(es), f) {
        var x :| x in TidKeys(es) && f(x) == k;
        var i :| 0 <= i < |es| && Located(es[i]) && es[i].tid.Some? && TidKey(es[i]) == x;
        ThreadImage(es, i);
      }
    }
  }

  lemma ThreadImage(es: seq<Event>, i: nat)
    requires i < |es| && Located(es[i]) && es[i].tid.Some?
    ensures var r := RenumberAll(es);
            && TidKey(es[i]) in TidKeys(es) && Located(r[i]) && r[i].tid.Some? && TidKey(r[i]) in TidKeys(r)
            && TidKey(r[i]) == Pass(PidKeys(es), TidKeys(es))(TidKey(es[i]))
  {
    assert Owner(TidKey(es[i])) == PidKey(es[i]);
  }

  /** In the second pass a process keeps its number. */
  lemma PidStays(pids: set<Key>, tids: set<Key>, k: Key)
    requires Alike(pids) && k in pids && forall x :: x in pids ==> x.tid.None?
    ensures var f := Pass(pids, tids);
            NewPid(Images(pids, f), f(k)) == NewPid(pids, k)
  {
    var f := Pass(pids, tids);
    forall a, b | a in pids && b in pids && Before(a, b) ensures Before(f(a), f(b)) {
      PidsKeepOrder(pids, tids, a, b);
    }
    BelowImages(pids, f, k);
  }

  /** And so does a thread. */
  lemma TidStays(pids: set<Key>, tids: set<Key>, k: Key)
    requires Alike(pids) && Alike(tids) && k in tids
    requires (forall x :: x in pids ==> x.tid.None?) && (forall x :: x in tids ==> x.tid.Some? && Owner(x) in pids)
    ensures var f := Pass(pids, tids);
            NewTid(Images(pids, f), Images(tids, f), f(k)) == NewTid(pids, tids, k)
  {
    var f := Pass(pids, tids);
    var s := Siblings(tids, k);
    PidStays(pids, tids, Owner(k));
    assert Owner(f(k)) == f(Owner(k));
    forall a, b | a in s && b in s && Before(a, b) ensures Before(f(a), f(b)) {
      TidsKeepOrder(pids, tids, a, b);
    }
    BelowImages(s, f, k);
    SiblingsAfterPass(pids, tids, k);
  }

  lemma SiblingsAfterPass(pids: set<Key>, tids: set<Key>, k: Key)
    requires Alike(pids) && k in tids
    requires forall x :: x in tids ==> x.tid.Some? && Owner(x) in pids
    ensures var f := Pass(pids, tids);
            Siblings(Images(tids, f), f(k)) == Images(Siblings(tids, k), f)
  {
    var f := Pass(pids, tids);
    forall x | x in tids ensures Owner(f(x)) == Owner(f(k)) <==> Owner(x) == Owner(k) {
      NewPidsDiffer(pids, Owner(x), Owner(k));
    }
  }

  /** A second pass changes nothing. */
  lemma RemapIsIdempotent(es: seq<Event>)
    ensures RenumberAll(RenumberAll(es)) == RenumberAll(es)
  {
    var pids, tids, r := PidKeys(es), TidKeys(es), RenumberAll(es);
    var f := Pass(pids, tids);
    PidKeysAfterPass(es);
    TidKeysAfterPass(es);
    OwnersAreProcesses(es);
    forall i | 0 <= i < |es| ensures Renumber(r[i], PidKeys(r), TidKeys(r)) == r[i] {
      if Located(es[i]) {
        assert PidKey(es[i]) in pids && PidKey(r[i]) == f(PidKey(es[i]));
        PidStays(pids, tids, PidKey(es[i]));
        if es[i].tid.Some? {
          assert TidKey(es[i]) in tids && TidKey(r[i]) == f(TidKey(es[i]));
          TidStays(pids, tids, TidKey(es[i]));
        }
      }
    }
  }

  // ---------------------------------------------------------------- flows

  /** The two places of an event that refer to a flow. */
  datatype Place = FlowId | Correlation

  function At(e: Event, p: Place): Option<Id> { if p.FlowId? then e.flow else e.correlation }

  predicate Refers(e: Event, p: Place) { e.rank.Some? && At(e, p).Some? }

  function FlowKey(e: Event, p: Place): Key
    requires Refers(e, p)
  {
    Key(e.rank.value, e.role, At(e, p).value, None)
  }

  function FlowKeys(es: seq<Event>): (s: set<Key>)
    ensures Alike(s) && forall k :: k in s ==> k.tid.None?
  {
    (set i | 0 <= i < |es| && Refers(es[i], FlowId) :: FlowKey(es[i], FlowId))
    + (set i | 0 <= i < |es| && Refers(es[i], Correlation) :: FlowKey(es[i], Correlation))
  }

  function NewFlow(e: Event, p: Place, keys: set<Key>): Option<Id> {
    if Refers(e, p) then Some(Int(NewPid(keys, FlowKey(e, p)))) else At(e, p)
  }

  function Relink(e: Event, keys: set<Key>): Event {
    e.(flow := NewFlow(e, FlowId, keys), correlation := NewFlow(e, Correlation, keys))
  }

  function RelinkAll(es: seq<Event>): (r: seq<Event>)
    ensures |r| == |es| && forall i :: 0 <= i < |es| ==> r[i] == Relink(es[i], FlowKeys(es))
  {
    seq(|es|, i requires 0 <= i < |es| => Relink(es[i], FlowKeys(es)))
  }

  lemma FlowKeyListed(es: seq<Event>, i: nat, p: Place)
    requires i < |es| && Refers(es[i], p)
    ensures FlowKey(es[i], p) in FlowKeys(es)
  {
    if p.FlowId? {
      assert FlowKey(es[i], FlowId) in FlowKeys(es);
    } else {
      assert FlowKey(es[i], Correlation) in FlowKeys(es);
    }
  }

  lemma ListedFlowKey(es: seq<Event>, k: Key) returns (i: nat, p: Place)
    requires k in FlowKeys(es)
    ensures i < |es| && Refers(es[i], p) && FlowKey(es[i], p) == k
  {
    if j :| 0 <= j < |es| && Refers(es[j], FlowId) && FlowKey(es[j], FlowId) == k {
      i, p := j, FlowId;
    } else {
      var j :| 0 <= j < |es| && Refers(es[j], Correlation) && FlowKey(es[j], Correlation) == k;
      i, p := j, Correlation;
    }
  }

  method CollectFlows(events: array<Event>) returns (keys: set<Key>)
    ensures keys == FlowKeys(events[..])
  {
    keys := {};
    for i := 0 to events.Length
      invariant keys == FlowKeys(events[..i])
    {
      var e := events[i];
      assert events[..i + 1] == events[..i] + [e];
      OneMoreReference(events[..i], e);
      if e.rank.None? { continue; }
      if e.flow.Some? { keys := keys + {FlowKey(e, FlowId)}; }
      if e.correlation.Some? { keys := keys + {FlowKey(e, Correlation)}; }
    }
    assert events[..events.Length] == events[..];
  }

  /** The flow part of `convert_jsonl_to_chrome_trace`. */
  method RemapFlows(events: array<Event>)
    modifies events
    ensures events[..] == RelinkAll(old(events[..]))
  {
    ghost var es := events[..];
    var keys := CollectFlows(events);
    var flowMap := NumberPids(keys);
    FollowAll(events, flowMap);
    forall i | 0 <= i < |es| ensures Followed(es[i], flowMap) == RelinkAll(es)[i] {
      FollowedIsRelinked(es, i, flowMap);
    }
  }

  /** Every event as the map renumbers its references, in place. */
  method FollowAll(events: array<Event>, flowMap: map<Key, nat>)
    modifies events
    ensures forall j :: 0 <= j < events.Length ==> events[j] == Followed(old(events[j]), flowMap)
  {
    for i := 0 to events.Length
      invariant forall j :: 0 <= j < i ==> events[j] == Followed(old(events[j]), flowMap)
      invariant forall j :: i <= j < events.Length ==> events[j] == old(events[j])
    {
      events[i] := Followed(events[i], flowMap);
    }
  }

  /** The event as the map renumbers its references. */
  function Followed(e: Event, flowMap: map<Key, nat>): Event {
    e.(flow := FollowedAt(e, FlowId, flowMap), correlation := FollowedAt(e, Correlation, flowMap))
  }

  function FollowedAt(e: Event, p: Place, flowMap: map<Key, nat>): Option<Id> {
    if Refers(e, p) && FlowKey(e, p) in flowMap then Some(Int(flowMap[FlowKey(e, p)])) else At(e, p)
  }

  lemma FollowedIsRelinked(es: seq<Event>, i: nat, flowMap: map<Key, nat>)
    requires i < |es| && NumbersPids(flowMap, FlowKeys(es))
    ensures Followed(es[i], flowMap) == RelinkAll(es)[i]
  {
    forall p | Refers(es[i], p) ensures FlowKey(es[i], p) in FlowKeys(es) {
      FlowKeyListed(es, i, p);
    }
  }

  lemma OneMoreReference(es: seq<Event>, e: Event)
    ensures FlowKeys(es + [e]) == FlowKeys(es) + (if Refers(e, FlowId) then {FlowKey(e, FlowId)} else {})
                                  + (if Refers(e, Correlation) then {FlowKey(e, Correlation)} else {})
  {
    var all := es + [e];
    assert all[|es|] == e && forall i :: 0 <= i < |es| ==> all[i] == es[i];
    forall k | k in FlowKeys(es) ensures k in FlowKeys(all) {
      var i, p := ListedFlowKey(es, k);
      assert all[i] == es[i];
      FlowKeyListed(all, i, p);
    }
    forall p | Refers(e, p) ensures FlowKey(e, p) in FlowKeys(all) {
      FlowKeyListed(all, |es|, p);
    }
    forall k | k in FlowKeys(all)
      ensures k in FlowKeys(es) || (Refers(e, FlowId) && k == FlowKey(e, FlowId))
              || (Refers(e, Correlation) && k == FlowKey(e, Correlation))
    {
      var i, p := ListedFlowKey(all, k);
      if i < |es| {
        FlowKeyListed(es, i, p);
      }
    }
  }

  /** Two references are paired after the pass exactly when they were references to the same flow of the same
  rank and role. */
  lemma FlowsStayPaired(es: seq<Event>, i: nat, p: Place, j: nat, q: Place)
    requires i < |es| && j < |es| && Refers(es[i], p) && Refers(es[j], q)
    ensures var r := RelinkAll(es);
            At(r[i], p) == At(r[j], q) <==>
            es[i].rank == es[j].rank && es[i].role == es[j].role && At(es[i], p) == At(es[j], q)
  {
    FlowKeyListed(es, i, p);
    FlowKeyListed(es, j, q);
    NewPidsDiffer(FlowKeys(es), FlowKey(es[i], p), FlowKey(es[j], q));
  }

  ghost predicate FlowIs(es: seq<Event>, i: nat, p: Place, n: int)
    requires i < |es|
  {
    Refers(es[i], p) && At(RelinkAll(es)[i], p) == Some(Int(n))
  }

  lemma FlowIsPlace(es: seq<Event>, i: nat, p: Place, n: int)
    requires i < |es|
    ensures FlowIs(es, i, p, n) <==> Refers(es[i], p) && 1 + |Below(FlowKeys(es), FlowKey(es[i], p))| == n
    ensures Refers(es[i], p) ==> FlowKey(es[i], p) in FlowKeys(es)
  {
    if Refers(es[i], p) {
      FlowKeyListed(es, i, p);
    }
  }

  ghost predicate HasFlow(es: seq<Event>, n: int) { exists i, p :: 0 <= i < |es| && FlowIs(es, i, p, n) }

  /** The flows are numbered from 1 without gaps. */
  lemma FlowsAreConsecutive(es: seq<Event>, n: int)
    ensures HasFlow(es, n) <==> 1 <= n <= |FlowKeys(es)|
  {
    var keys := FlowKeys(es);
    EveryPlaceIsTaken(keys, n);
    if HasPlace(keys, n) {
      var k :| k in keys && 1 + |Below(keys, k)| == n;
      var i, p := ListedFlowKey(es, k);
      FlowIsPlace(es, i, p, n);
    }
    if HasFlow(es, n) {
      var i, p :| 0 <= i < |es| && FlowIs(es, i, p, n);
      FlowIsPlace(es, i, p, n);
    }
  }

  /** Only the references of events with a rank change. */
  lemma RelinkChangesOnlyReferences(es: seq<Event>, i: nat)
    requires i < |es|
    ensures var e := RelinkAll(es)[i];
            && e == es[i].(flow := e.flow, correlation := e.correlation)
            && forall p :: !Refers(es[i], p) ==> At(e, p) == At(es[i], p)
  {
  }

  lemma FlowKeysAfterPass(es: seq<Event>)
    ensures FlowKeys(RelinkAll(es)) == Images(FlowKeys(es), Pass(FlowKeys(es), {}))
  {
    var f, r := Pass(FlowKeys(es), {}), RelinkAll(es);
    forall i, p | 0 <= i < |es| && Refers(es[i], p)
      ensures Refers(r[i], p) && FlowKey(r[i], p) == f(FlowKey(es[i], p))
    {
      assert Owner(FlowKey(es[i], p)) == FlowKey(es[i], p);
    }
    forall k ensures k in FlowKeys(r) <==> k in Images(FlowKeys(es), f) {
      if k in FlowKeys(r) {
        var i, p := ListedFlowKey(r, k);
        assert Refers(es[i], p);
        FlowKeyListed(es, i, p);
      }
      if k in Images(FlowKeys(es), f) {
        var x :| x in FlowKeys(es) && f(x) == k;
        var i, p := ListedFlowKey(es, x);
        FlowKeyListed(r, i, p);
      }
    }
  }

  /** A second pass over the flows changes nothing either. */
  lemma RelinkIsIdempotent(es: seq<Event>)
    ensures RelinkAll(RelinkAll(es)) == RelinkAll(es)
  {
    var keys, r := FlowKeys(es), RelinkAll(es);
    var f := Pass(keys, {});
    FlowKeysAfterPass(es);
    forall i, p | 0 <= i < |es| ensures NewFlow(r[i], p, FlowKeys(r)) == At(r[i], p) {
      if Refers(es[i], p) {
        FlowKeyListed(es, i, p);
        assert Owner(FlowKey(es[i], p)) == FlowKey(es[i], p);
        assert FlowKey(r[i], p) == f(FlowKey(es[i], p));
        PidStays(keys, {}, FlowKey(es[i], p));
      } else {
        assert !Refers(r[i], p);
      }
    }
    forall i | 0 <= i < |es| ensures Relink(r[i], FlowKeys(r)) == r[i] {
      assert NewFlow(r[i], FlowId, FlowKeys(r)) == At(r[i], FlowId);
      assert NewFlow(r[i], Correlation, FlowKeys(r)) == At(r[i], Correlation);
    }
  }
}
