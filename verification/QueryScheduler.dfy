/** The dashboard query scheduler: at most `maxConcurrent` queries run, lowest priority number first,
    ties in registration order (web/src/hooks/useDashboardQueryScheduler.tsx). */
module QueryScheduler {
  import opened Arithmetic
  import opened Collections

  datatype Status = Queued | Running | Done

  datatype Item = Item(id: string, priority: int, isEligible: bool, runKey: string, status: Status) {
    predicate Waiting() { status.Queued? && isEligible }
  }

  /* ---------- counting and ranking ---------- */

  function RunningSet(items: seq<Item>): set<nat> { set i: nat | i < |items| && items[i].status.Running? }

  function RunningCount(items: seq<Item>): nat { |RunningSet(items)| }

  function WaitingSet(items: seq<Item>): set<nat> { set i: nat | i < |items| && items[i].Waiting() }

  /** Lower priority number first, earlier registration on ties. */
  predicate Before(items: seq<Item>, i: nat, j: nat)
    requires i < |items| && j < |items|
  {
    items[i].priority < items[j].priority || (items[i].priority == items[j].priority && i < j)
  }

  function Ahead(items: seq<Item>, i: nat): set<nat>
    requires i < |items|
  {
    set j: nat | j < |items| && items[j].Waiting() && Before(items, j, i)
  }

  /** How many waiting items go first. */
  function Rank(items: seq<Item>, i: nat): nat
    requires i < |items|
  {
    |Ahead(items, i)|
  }

  predicate Promoted(items: seq<Item>, maxConcurrent: int, i: nat)
    requires i < |items|
  {
    items[i].Waiting() && Rank(items, i) < maxConcurrent - RunningCount(items)
  }

  /** What one queue synchronisation means: the best-ranked waiting items fill the free slots. */
  function Sync(items: seq<Item>, maxConcurrent: int): seq<Item> {
    seq(|items|, i requires 0 <= i < |items| =>
          if Promoted(items, maxConcurrent, i) then items[i].(status := Running) else items[i])
  }

  /* ---------- the sorted candidate list ---------- */

  function InsertByRank(items: seq<Item>, i: nat, sorted: seq<nat>): (r: seq<nat>)
    requires i < |items| && forall k :: 0 <= k < |sorted| ==> sorted[k] < |items|
    ensures forall k :: 0 <= k < |r| ==> r[k] < |items|
  {
    if sorted == [] || Before(items, i, sorted[0]) then [i] + sorted
    else [sorted[0]] + InsertByRank(items, i, sorted[1..])
  }

  predicate SortedList(items: seq<Item>, sorted: seq<nat>) {
    && (forall k :: 0 <= k < |sorted| ==> sorted[k] < |items|)
    && (forall k, l :: 0 <= k < l < |sorted| ==> Before(items, sorted[k], sorted[l]))
  }

  lemma {:induction false} InsertKeepsSorted(items: seq<Item>, i: nat, sorted: seq<nat>)
    requires SortedList(items, sorted) && i < |items| && i !in sorted
    ensures SortedList(items, InsertByRank(items, i, sorted))
    ensures forall j :: j in InsertByRank(items, i, sorted) <==> j == i || j in sorted
  {
    if sorted != [] && !Before(items, i, sorted[0]) {
      InsertKeepsSorted(items, i, sorted[1..]);
      var rest := InsertByRank(items, i, sorted[1..]);
      forall k | 0 <= k < |rest| ensures Before(items, sorted[0], rest[k]) {
        assert rest[k] in rest;
        if rest[k] != i {
          var l :| 0 <= l < |sorted[1..]| && sorted[1..][l] == rest[k];
          assert sorted[l + 1] == rest[k];
        }
      }
    }
  }

  lemma SortedIsDistinct(items: seq<Item>, s: seq<nat>)
    requires SortedList(items, s)
    ensures |ToSet(s)| == |s|
  {
    forall k, l | 0 <= k < l < |s| ensures s[k] != s[l] { assert Before(items, s[k], s[l]); }
    DistinctSize(s);
  }

  /** In the sorted list of all waiting items, position is rank. */
  lemma RankIsPosition(items: seq<Item>, sorted: seq<nat>, p: nat)
    requires SortedList(items, sorted) && p < |sorted|
    requires forall j: nat :: j in sorted <==> j in WaitingSet(items)
    ensures Rank(items, sorted[p]) == p
  {
    SortedIsDistinct(items, sorted[..p]);
    forall j ensures j in Ahead(items, sorted[p]) <==> j in sorted[..p] {
      if j in Ahead(items, sorted[p]) {
        assert j in WaitingSet(items);
        var k :| 0 <= k < |sorted| && sorted[k] == j;
        assert k < p;
        assert sorted[..p][k] == j;
      }
      if j in sorted[..p] {
        var k :| 0 <= k < p && sorted[..p][k] == j;
        assert sorted[k] == j && j in sorted;
        assert j in WaitingSet(items);
      }
    }
    assert Ahead(items, sorted[p]) == ToSet(sorted[..p]);
  }

  function WaitingList(items: seq<Item>, n: nat): (s: seq<nat>)
    requires n <= |items|
    ensures forall k :: 0 <= k < |s| ==> s[k] < |items|
  {
    if n == 0 then []
    else if items[n - 1].Waiting() then InsertByRank(items, n - 1, WaitingList(items, n - 1))
    else WaitingList(items, n - 1)
  }

  /** The list holds the waiting items before `n`. */
  predicate ListsWaiting(items: seq<Item>, n: nat, s: seq<nat>)
    requires n <= |items|
  {
    SortedList(items, s) && (forall k :: 0 <= k < |s| ==> s[k] < n && items[s[k]].Waiting())
    && forall j: nat :: j < n && items[j].Waiting() ==> j in s
  }

  lemma InsertWaiting(items: seq<Item>, n: nat, s: seq<nat>)
    requires n < |items| && ListsWaiting(items, n, s) && items[n].Waiting()
    ensures ListsWaiting(items, n + 1, InsertByRank(items, n, s))
  {
    assert n !in s;
    InsertKeepsSorted(items, n, s);
    var t := InsertByRank(items, n, s);
    forall k | 0 <= k < |t| ensures t[k] < n + 1 && items[t[k]].Waiting() { assert t[k] in t; }
  }

  lemma SkipItem(items: seq<Item>, n: nat, s: seq<nat>)
    requires n < |items| && ListsWaiting(items, n, s) && !items[n].Waiting()
    ensures ListsWaiting(items, n + 1, s)
  {
  }

  lemma {:induction false} WaitingListSorted(items: seq<Item>, n: nat)
    requires n <= |items|
    ensures ListsWaiting(items, n, WaitingList(items, n))
  {
    if n > 0 {
      var front := WaitingList(items, n - 1);
      WaitingListSorted(items, n - 1);
      if items[n - 1].Waiting() { InsertWaiting(items, n - 1, front); } else { SkipItem(items, n - 1, front); }
    }
  }

  lemma WaitingRanks(items: seq<Item>)
    ensures var s := WaitingList(items, |items|);
            && SortedList(items, s)
            && (forall j: nat :: j in s <==> j in WaitingSet(items))
            && (forall p: nat :: p < |s| ==> Rank(items, s[p]) == p)
            && |s| == |WaitingSet(items)|
  {
    var s := WaitingList(items, |items|);
    WaitingListSorted(items, |items|);
    forall j: nat ensures j in s <==> j in WaitingSet(items) {
      if j in s { var k :| 0 <= k < |s| && s[k] == j; }
    }
    forall p: nat | p < |s| ensures Rank(items, s[p]) == p { RankIsPosition(items, s, p); }
    SortedIsDistinct(items, s);
    assert ToSet(s) == WaitingSet(items);
  }

  /* ---------- one synchronisation ---------- */

  function Slots(items: seq<Item>, maxConcurrent: int): nat {
    Max(0, Min(maxConcurrent - RunningCount(items), |WaitingSet(items)|))
  }

  /** A synchronisation starts exactly as many items as there are free slots and waiting items. */
  lemma SyncCount(items: seq<Item>, maxConcurrent: int)
    ensures RunningCount(Sync(items, maxConcurrent)) == RunningCount(items) + Slots(items, maxConcurrent)
  {
    var s, n := WaitingList(items, |items|), Slots(items, maxConcurrent);
    WaitingRanks(items);
    var started := ToSet(s[..n]);
    SortedIsDistinct(items, s[..n]);
    StartedAre(items, maxConcurrent, s);
    assert RunningSet(Sync(items, maxConcurrent)) == RunningSet(items) + started;
    assert RunningSet(items) !! started;
  }

  lemma StartedAre(items: seq<Item>, maxConcurrent: int, s: seq<nat>)
    requires SortedList(items, s) && (forall j: nat :: j in s <==> j in WaitingSet(items))
    requires |s| == |WaitingSet(items)| && forall p: nat :: p < |s| ==> Rank(items, s[p]) == p
    ensures Slots(items, maxConcurrent) <= |s|
    ensures forall i: nat :: i in ToSet(s[..Slots(items, maxConcurrent)])
              <==> i < |items| && Promoted(items, maxConcurrent, i)
  {
    var n := Slots(items, maxConcurrent);
    forall i: nat ensures i in ToSet(s[..n]) <==> i < |items| && Promoted(items, maxConcurrent, i) {
      if i in ToSet(s[..n]) {
        var k :| 0 <= k < n && s[..n][k] == i;
        assert Rank(items, s[k]) == k && s[k] in s;
      }
      if i < |items| && Promoted(items, maxConcurrent, i) {
        assert i in s;
        var k :| 0 <= k < |s| && s[k] == i;
        assert s[..n][k] == i;
      }
    }
  }

  predicate WorkConserving(items: seq<Item>, maxConcurrent: int) {
    RunningCount(items) >= maxConcurrent || forall i :: 0 <= i < |items| ==> !items[i].Waiting()
  }

  lemma SyncConserves(items: seq<Item>, maxConcurrent: int)
    ensures WorkConserving(Sync(items, maxConcurrent), maxConcurrent)
  {
    var t := Sync(items, maxConcurrent);
    SyncCount(items, maxConcurrent);
    if RunningCount(t) < maxConcurrent {
      WaitingRanks(items);
      var s := WaitingList(items, |items|);
      forall i: nat | i < |items| && items[i].Waiting() ensures Promoted(items, maxConcurrent, i) {
        assert i in WaitingSet(items) && i in s;
        var k :| 0 <= k < |s| && s[k] == i;
      }
    }
  }

  lemma SyncRespectsCap(items: seq<Item>, maxConcurrent: int)
    ensures RunningCount(items) <= RunningCount(Sync(items, maxConcurrent)) <= Max(RunningCount(items), maxConcurrent)
  {
    SyncCount(items, maxConcurrent);
  }

  /** The started items are a prefix of the priority order: whatever starts goes before whatever stays. */
  lemma SyncIsPrefix(items: seq<Item>, maxConcurrent: int, i: nat, j: nat)
    requires i < |items| && j < |items| && Promoted(items, maxConcurrent, i)
    requires items[j].Waiting() && !Promoted(items, maxConcurrent, j)
    ensures items[i].priority < items[j].priority || (items[i].priority == items[j].priority && i < j)
  {
    if !Before(items, i, j) {
      assert i != j && Before(items, j, i);
      assert Ahead(items, j) <= Ahead(items, i);
      assert j in Ahead(items, i) && j !in Ahead(items, j);
      SubsetSize(Ahead(items, j), Ahead(items, i));
    }
  }

  /* ---------- the operations ---------- */

  predicate DistinctIds(items: seq<Item>) {
    forall i, j :: 0 <= i < j < |items| ==> items[i].id != items[j].id
  }

  /** Index of an id, |items| when it is not registered. */
  function IndexOf(items: seq<Item>, id: string): (k: nat)
    ensures k <= |items|
    ensures k < |items| ==> items[k].id == id
    ensures forall i :: 0 <= i < k ==> items[i].id != id
  {
    if items == [] then 0 else if items[0].id == id then 0 else 1 + IndexOf(items[1..], id)
  }

  datatype Op =
    | Register(id: string, priority: int, isEligible: bool, runKey: string)
    | Unregister(id: string)
    | MarkDone(id: string)
    | Reset
    | SetMax(n: int)

  datatype Queue = Queue(items: seq<Item>, maxConcurrent: int)

  function Synced(items: seq<Item>, n: int): Queue { Queue(Sync(items, n), n) }

  function Requeued(items: seq<Item>): seq<Item> {
    seq(|items|, i requires 0 <= i < |items| => items[i].(status := Queued))
  }

  function Apply(q: Queue, op: Op): Queue {
    match op
    case Register(id, priority, isEligible, runKey) =>
      var k := IndexOf(q.items, id);
      if k == |q.items| then Synced(q.items + [Item(id, priority, isEligible, runKey, Queued)], q.maxConcurrent)
      else
        var x := q.items[k];
        var status := if x.runKey != runKey && x.status.Done? then Queued else x.status;
        Synced(q.items[k := Item(id, priority, isEligible, runKey, status)], q.maxConcurrent)
    case Unregister(id) =>
      var k := IndexOf(q.items, id);
      if k == |q.items| then q
      else
        var rest := q.items[..k] + q.items[k + 1..];
        if q.items[k].status.Running? then Synced(rest, q.maxConcurrent) else q.(items := rest)
    case MarkDone(id) =>
      var k := IndexOf(q.items, id);
      if k == |q.items| || q.items[k].status.Done? then q
      else Synced(q.items[k := q.items[k].(status := Done)], q.maxConcurrent)
    case Reset => Synced(Requeued(q.items), q.maxConcurrent)
    case SetMax(n) => Synced(q.items, n)
  }

  function Exec(q: Queue, ops: seq<Op>): Queue
    decreases |ops|
  {
    if ops == [] then q else Exec(Apply(q, ops[0]), ops[1..])
  }

  predicate Good(q: Queue) { DistinctIds(q.items) && WorkConserving(q.items, q.maxConcurrent) }

  /* ---------- every reachable queue ---------- */

  predicate IsRunning(x: Item) { x.status.Running? }

  function CountIf(items: seq<Item>, p: Item -> bool): nat {
    if items == [] then 0
    else CountIf(items[..|items| - 1], p) + if p(items[|items| - 1]) then 1 else 0
  }

  lemma {:induction false} CountIs(items: seq<Item>)
    ensures CountIf(items, IsRunning) == RunningCount(items)
  {
    if items != [] {
      var n := |items| - 1;
      CountIs(items[..n]);
      assert RunningSet(items) == RunningSet(items[..n]) + if items[n].status.Running? then {n} else {};
    }
  }

  lemma {:induction false} CountConcat(a: seq<Item>, b: seq<Item>, p: Item -> bool)
    ensures CountIf(a + b, p) == CountIf(a, p) + CountIf(b, p)
  {
    if b == [] {
      assert a + b == a;
    } else {
      assert (a + b)[..|a + b| - 1] == a + b[..|b| - 1];
      CountConcat(a, b[..|b| - 1], p);
    }
  }

  function Flag(b: bool): nat { if b then 1 else 0 }

  /** Replacing or removing one item changes a count by that item. */
  lemma CountAround(items: seq<Item>, k: nat, x: Item, p: Item -> bool)
    requires k < |items|
    ensures CountIf(items[k := x], p) == CountIf(items, p) - Flag(p(items[k])) + Flag(p(x))
    ensures CountIf(items[..k] + items[k + 1..], p) == CountIf(items, p) - Flag(p(items[k]))
  {
    var a, b := items[..k], items[k + 1..];
    assert items == a + [items[k]] + b && items[k := x] == a + [x] + b;
    CountConcat(a, b, p);
    CountConcat(a + [items[k]], b, p);
    CountConcat(a, [items[k]], p);
    CountConcat(a + [x], b, p);
    CountConcat(a, [x], p);
  }

  lemma RunningAround(items: seq<Item>, k: nat, x: Item)
    requires k < |items|
    ensures RunningCount(items[k := x]) == RunningCount(items) - Flag(IsRunning(items[k])) + Flag(IsRunning(x))
    ensures RunningCount(items[..k] + items[k + 1..]) == RunningCount(items) - Flag(IsRunning(items[k]))
  {
    CountAround(items, k, x, IsRunning);
    CountIs(items);
    CountIs(items[k := x]);
    CountIs(items[..k] + items[k + 1..]);
  }

  lemma RunningAppend(items: seq<Item>, x: Item)
    ensures RunningCount(items + [x]) == RunningCount(items) + Flag(IsRunning(x))
  {
    CountIs(items);
    CountIs(items + [x]);
    CountConcat(items, [x], IsRunning);
  }

  lemma SyncedIsGood(items: seq<Item>, n: int)
    requires DistinctIds(items)
    ensures Good(Synced(items, n))
  {
    SyncConserves(items, n);
  }

  /** Removing an item that does not run frees no slot, so nothing new may start. */
  lemma RemovedIsGood(q: Queue, k: nat)
    requires Good(q) && k < |q.items| && !q.items[k].status.Running?
    ensures Good(q.(items := q.items[..k] + q.items[k + 1..]))
  {
    var rest := q.items[..k] + q.items[k + 1..];
    RunningAround(q.items, k, q.items[k]);
    forall i | 0 <= i < |rest| ensures rest[i] == q.items[if i < k then i else i + 1] {}
  }

  lemma RegisterKeepsGood(q: Queue, id: string, priority: int, isEligible: bool, runKey: string)
    requires Good(q)
    ensures Good(Apply(q, Register(id, priority, isEligible, runKey)))
  {
    var k := IndexOf(q.items, id);
    var x := Item(id, priority, isEligible, runKey, Queued);
    if k == |q.items| {
      SyncedIsGood(q.items + [x], q.maxConcurrent);
    } else {
      var prior := q.items[k].status;
      var y := x.(status := if q.items[k].runKey != runKey && prior.Done? then Queued else prior);
      SyncedIsGood(q.items[k := y], q.maxConcurrent);
    }
  }

  lemma UnregisterKeepsGood(q: Queue, id: string)
    requires Good(q)
    ensures Good(Apply(q, Unregister(id)))
  {
    var k := IndexOf(q.items, id);
    if k < |q.items| {
      SyncedIsGood(q.items[..k] + q.items[k + 1..], q.maxConcurrent);
      if !q.items[k].status.Running? { RemovedIsGood(q, k); }
    }
  }

  lemma MarkDoneKeepsGood(q: Queue, id: string)
    requires Good(q)
    ensures Good(Apply(q, MarkDone(id)))
  {
    var k := IndexOf(q.items, id);
    if k < |q.items| {
      SyncedIsGood(q.items[k := q.items[k].(status := Done)], q.maxConcurrent);
    }
  }

  /** Ids stay distinct, and after every operation the cap is reached or nothing eligible waits. */
  lemma OpKeepsGood(q: Queue, op: Op)
    requires Good(q)
    ensures Good(Apply(q, op))
  {
    match op
    case Register(id, priority, isEligible, runKey) => RegisterKeepsGood(q, id, priority, isEligible, runKey);
    case Unregister(id) => UnregisterKeepsGood(q, id);
    case MarkDone(id) => MarkDoneKeepsGood(q, id);
    case Reset => SyncedIsGood(Requeued(q.items), q.maxConcurrent);
    case SetMax(n) => SyncedIsGood(q.items, n);
  }

  /** A sync may start a waiting item and does nothing else to any item. */
  predicate AtMostStarted(before: Item, after: Item) {
    after == before || (before.Waiting() && after == before.(status := Running))
  }

  /** Registering stores the new settings in place, or at the end for an unknown id; only a done item under
      a new run key loses its status, and the other items can only be started. */
  lemma RegisterMeaning(q: Queue, id: string, priority: int, isEligible: bool, runKey: string)
    requires DistinctIds(q.items)
    ensures var t := Apply(q, Register(id, priority, isEligible, runKey)).items;
            var k := IndexOf(q.items, id);
            && |t| == (if k == |q.items| then k + 1 else |q.items|)
            && t[k].id == id && t[k].priority == priority && t[k].isEligible == isEligible && t[k].runKey == runKey
            && (k == |q.items| ==> !t[k].status.Done?)
            && (k < |q.items| && q.items[k].status.Running? ==> t[k].status.Running?)
            && (k < |q.items| && q.items[k].status.Done? ==> (t[k].status.Done? <==> q.items[k].runKey == runKey))
            && forall i :: 0 <= i < |q.items| && i != k ==> AtMostStarted(q.items[i], t[i])
  {
  }

  /** Unregistering removes the item and nothing else, and starts others only if it was running; an unknown id changes
      nothing. */
  lemma UnregisterMeaning(q: Queue, id: string)
    requires DistinctIds(q.items)
    ensures var t, k := Apply(q, Unregister(id)), IndexOf(q.items, id);
            && t.maxConcurrent == q.maxConcurrent
            && (forall i :: 0 <= i < |t.items| ==> t.items[i].id != id)
            && (k == |q.items| ==> t == q)
            && (k < |q.items| ==>
                  && |t.items| == |q.items| - 1
                  && (forall i :: 0 <= i < k ==> AtMostStarted(q.items[i], t.items[i]))
                  && (forall i :: k < i < |q.items| ==> AtMostStarted(q.items[i], t.items[i - 1]))
                  && (!q.items[k].status.Running? ==> t.items == q.items[..k] + q.items[k + 1..]))
  {
    var k, t := IndexOf(q.items, id), Apply(q, Unregister(id));
    if k < |q.items| {
      var rest := q.items[..k] + q.items[k + 1..];
      forall i | 0 <= i < |rest| ensures rest[i].id != id && AtMostStarted(rest[i], t.items[i]) {
        assert rest[i] == q.items[if i < k then i else i + 1];
      }
      forall i | 0 <= i < k ensures AtMostStarted(q.items[i], t.items[i]) { assert rest[i] == q.items[i]; }
      forall i | k < i < |q.items| ensures AtMostStarted(q.items[i], t.items[i - 1]) {
        assert rest[i - 1] == q.items[i];
      }
    }
  }

  /** An item that is marked done is done, keeps its settings, and the others are at most started; an unknown or done
      item changes nothing. */
  lemma MarkDoneMeaning(q: Queue, id: string)
    requires DistinctIds(q.items)
    ensures var t, k := Apply(q, MarkDone(id)), IndexOf(q.items, id);
            && t.maxConcurrent == q.maxConcurrent && |t.items| == |q.items|
            && (k == |q.items| || q.items[k].status.Done? ==> t == q)
            && (k < |q.items| ==> t.items[k] == q.items[k].(status := Done))
            && forall i :: 0 <= i < |q.items| && i != k ==> AtMostStarted(q.items[i], t.items[i])
  {
  }

  /** A new cap is stored, and items are at most started. */
  lemma SetMaxMeaning(q: Queue, n: int)
    ensures var t := Apply(q, SetMax(n));
            && t.maxConcurrent == n && |t.items| == |q.items|
            && forall i :: 0 <= i < |q.items| ==> AtMostStarted(q.items[i], t.items[i])
  {
  }

  predicate RanBefore(q: Queue, id: string) {
    exists i :: 0 <= i < |q.items| && q.items[i].id == id && IsRunning(q.items[i])
  }

  lemma RegisterStartsBest(q: Queue, op: Op, i: nat, j: nat)
    requires op.Register? && DistinctIds(q.items)
    requires var t := Apply(q, op).items; i < |t| && j < |t| && t[i].status.Running? && t[j].Waiting()
    requires !RanBefore(q, Apply(q, op).items[i].id)
    ensures Before(Apply(q, op).items, i, j)
  {
    var k := IndexOf(q.items, op.id);
    var x := Item(op.id, op.priority, op.isEligible, op.runKey, Queued);
    if k == |q.items| {
      assert (q.items + [x])[i].status.Running? ==> RanBefore(q, q.items[i].id);
      StartedFirst(q.items + [x], q.maxConcurrent, i, j);
    } else {
      var prior := q.items[k].status;
      var y := x.(status := if q.items[k].runKey != op.runKey && prior.Done? then Queued else prior);
      assert q.items[k := y][i].status.Running? ==> RanBefore(q, q.items[i].id);
      StartedFirst(q.items[k := y], q.maxConcurrent, i, j);
    }
  }

  lemma UnregisterStartsBest(q: Queue, id: string, i: nat, j: nat)
    requires DistinctIds(q.items)
    requires var t := Apply(q, Unregister(id)).items; i < |t| && j < |t| && t[i].status.Running? && t[j].Waiting()
    requires !RanBefore(q, Apply(q, Unregister(id)).items[i].id)
    ensures Before(Apply(q, Unregister(id)).items, i, j)
  {
    var k := IndexOf(q.items, id);
    if k < |q.items| {
      var rest := q.items[..k] + q.items[k + 1..];
      var from := if i < k then i else i + 1;
      assert rest[i] == q.items[from];
      assert rest[i].status.Running? ==> RanBefore(q, q.items[from].id);
      StartedFirst(rest, q.maxConcurrent, i, j);
    }
  }

  /** Whatever an operation starts goes before whatever it leaves waiting. */
  lemma OpStartsBest(q: Queue, op: Op, i: nat, j: nat)
    requires DistinctIds(q.items)
    requires var t := Apply(q, op).items; i < |t| && j < |t| && t[i].status.Running? && t[j].Waiting()
    requires op.Reset? || !RanBefore(q, Apply(q, op).items[i].id)
    ensures var t := Apply(q, op).items;
            t[i].priority < t[j].priority || (t[i].priority == t[j].priority && i < j)
  {
    match op
    case Register(_, _, _, _) => RegisterStartsBest(q, op, i, j);
    case Unregister(id) => UnregisterStartsBest(q, id, i, j);
    case MarkDone(id) =>
      assert q.items[i].status.Running? ==> RanBefore(q, q.items[i].id);
      var k := IndexOf(q.items, id);
      if k < |q.items| && !q.items[k].status.Done? {
        StartedFirst(q.items[k := q.items[k].(status := Done)], q.maxConcurrent, i, j);
      }
    case Reset => StartedFirst(Requeued(q.items), q.maxConcurrent, i, j);
    case SetMax(n) =>
      assert q.items[i].status.Running? ==> RanBefore(q, q.items[i].id);
      StartedFirst(q.items, n, i, j);
  }

  lemma StartedFirst(items: seq<Item>, n: int, i: nat, j: nat)
    requires i < |items| && j < |items| && !items[i].status.Running?
    requires Sync(items, n)[i].status.Running? && Sync(items, n)[j].Waiting()
    ensures items[i].priority < items[j].priority || (items[i].priority == items[j].priority && i < j)
  {
    SyncIsPrefix(items, n, i, j);
  }

  /** A reset forgets every result and changes nothing else. */
  lemma ResetMeaning(q: Queue)
    ensures var t := Apply(q, Reset).items;
            && |t| == |q.items|
            && forall i :: 0 <= i < |t| ==> !t[i].status.Done? && t[i] == q.items[i].(status := t[i].status)
  {
  }

  /** No operation lifts the number of running queries above the cap; while a lowered cap is exceeded
      the number never grows. */
  lemma OpRespectsCap(q: Queue, op: Op)
    ensures RunningCount(Apply(q, op).items) <= Max(RunningCount(q.items), Apply(q, op).maxConcurrent)
    ensures op.Reset? ==> RunningCount(Apply(q, op).items) <= Max(0, q.maxConcurrent)
  {
    match op
    case Register(id, priority, isEligible, runKey) =>
      var k := IndexOf(q.items, id);
      var x := Item(id, priority, isEligible, runKey, Queued);
      if k == |q.items| {
        RunningAppend(q.items, x);
        SyncRespectsCap(q.items + [x], q.maxConcurrent);
      } else {
        var prior := q.items[k].status;
        var y := x.(status := if q.items[k].runKey != runKey && prior.Done? then Queued else prior);
        RunningAround(q.items, k, y);
        SyncRespectsCap(q.items[k := y], q.maxConcurrent);
      }
    case Unregister(id) =>
      var k := IndexOf(q.items, id);
      if k < |q.items| {
        RunningAround(q.items, k, q.items[k]);
        SyncRespectsCap(q.items[..k] + q.items[k + 1..], q.maxConcurrent);
      }
    case MarkDone(id) =>
      var k := IndexOf(q.items, id);
      if k < |q.items| {
        RunningAround(q.items, k, q.items[k].(status := Done));
        SyncRespectsCap(q.items[k := q.items[k].(status := Done)], q.maxConcurrent);
      }
    case Reset =>
      assert RunningSet(Requeued(q.items)) == {};
      SyncRespectsCap(Requeued(q.items), q.maxConcurrent);
    case SetMax(n) =>
      SyncRespectsCap(q.items, n);
  }

  /** The largest cap in force after any of the operations, or before the first. */
  function LargestCap(q: Queue, ops: seq<Op>): int
    decreases |ops|
  {
    if ops == [] then q.maxConcurrent else Max(q.maxConcurrent, LargestCap(Apply(q, ops[0]), ops[1..]))
  }

  /** In every run the invariant holds after each operation, and never does more run than at the start or
      than the largest cap allows; from the empty scheduler, never more than the largest cap. */
  lemma {:induction false} Safety(q: Queue, ops: seq<Op>)
    requires Good(q)
    ensures Good(Exec(q, ops))
    ensures RunningCount(Exec(q, ops).items) <= Max(RunningCount(q.items), LargestCap(q, ops))
    decreases |ops|
  {
    if ops != [] {
      OpKeepsGood(q, ops[0]);
      OpRespectsCap(q, ops[0]);
      Safety(Apply(q, ops[0]), ops[1..]);
    }
  }

  /* ---------- progress ---------- */

  /** Open, and eligible or running already. An item that lost its eligibility while it ran keeps its slot. */
  predicate InPlay(x: Item) { !x.status.Done? && (x.isEligible || x.status.Running?) }

  predicate Unfinished(x: Item) { !x.status.Done? && x.isEligible }

  /** Holds a slot and is not eligible: the hook does not mark it done. */
  predicate HoldsSlot(x: Item) { x.status.Running? && !x.isEligible }

  lemma {:induction false} CountSame(a: seq<Item>, b: seq<Item>, p: Item -> bool, q: Item -> bool)
    requires |a| == |b| && forall i :: 0 <= i < |a| ==> (p(a[i]) <==> q(b[i]))
    ensures CountIf(a, p) == CountIf(b, q)
    decreases |a|
  {
    if a != [] { CountSame(a[..|a| - 1], b[..|b| - 1], p, q); }
  }

  lemma {:induction false} CountAtMost(items: seq<Item>, p: Item -> bool, q: Item -> bool)
    requires forall x :: p(x) ==> q(x)
    ensures CountIf(items, p) <= CountIf(items, q)
    decreases |items|
  {
    if items != [] { CountAtMost(items[..|items| - 1], p, q); }
  }

  lemma {:induction false} CountZero(items: seq<Item>, p: Item -> bool)
    ensures CountIf(items, p) == 0 <==> forall i :: 0 <= i < |items| ==> !p(items[i])
    decreases |items|
  {
    if items != [] {
      CountZero(items[..|items| - 1], p);
      assert forall i :: 0 <= i < |items| - 1 ==> items[..|items| - 1][i] == items[i];
    }
  }

  predicate Runs(q: Queue, id: string) {
    IndexOf(q.items, id) < |q.items| && q.items[IndexOf(q.items, id)].status.Running?
  }

  ghost predicate SomethingRuns(q: Queue) { exists i :: 0 <= i < |q.items| && Runs(q, q.items[i].id) }

  lemma RunsMeaning(q: Queue, i: nat)
    requires DistinctIds(q.items) && i < |q.items|
    ensures IndexOf(q.items, q.items[i].id) == i && (Runs(q, q.items[i].id) <==> q.items[i].status.Running?)
  {
  }

  /** With a positive cap something runs exactly as long as something is in play. */
  lemma NeverStuck(q: Queue)
    requires Good(q) && q.maxConcurrent >= 1
    ensures CountIf(q.items, InPlay) > 0 <==> SomethingRuns(q)
  {
    CountZero(q.items, InPlay);
    if SomethingRuns(q) {
      var i :| 0 <= i < |q.items| && Runs(q, q.items[i].id);
      RunsMeaning(q, i);
      assert InPlay(q.items[i]);
    }
    if i :| 0 <= i < |q.items| && InPlay(q.items[i]) {
      if !q.items[i].status.Running? {
        assert q.items[i].Waiting();
        assert RunningSet(q.items) != {};
      } else {
        assert i in RunningSet(q.items);
      }
      var j :| j in RunningSet(q.items);
      RunsMeaning(q, j);
    }
  }

  /** The steps of a dashboard whose items, run keys and eligibility do not change: a running item is done, an item
      registers again, perhaps with another priority, or a positive cap is set. */
  predicate Steady(q: Queue, op: Op) {
    match op
    case MarkDone(id) => Runs(q, id)
    case Register(id, _, isEligible, runKey) =>
      var k := IndexOf(q.items, id);
      k < |q.items| && q.items[k].isEligible == isEligible && q.items[k].runKey == runKey
    case SetMax(n) => n >= 1
    case _ => false
  }

  predicate SteadyRun(q: Queue, ops: seq<Op>)
    decreases |ops|
  {
    ops == [] || (Steady(q, ops[0]) && SteadyRun(Apply(q, ops[0]), ops[1..]))
  }

  function Finishes(ops: seq<Op>): nat {
    if ops == [] then 0 else Flag(ops[0].MarkDone?) + Finishes(ops[1..])
  }

  /** The items just before the synchronisation that ends a steady step. */
  function Unsynced(q: Queue, op: Op): seq<Item>
    requires Steady(q, op)
  {
    match op
    case MarkDone(id) => var k := IndexOf(q.items, id); q.items[k := q.items[k].(status := Done)]
    case Register(id, priority, _, _) => var k := IndexOf(q.items, id); q.items[k := q.items[k].(priority := priority)]
    case _ => q.items
  }

  lemma SteadySyncs(q: Queue, op: Op)
    requires Steady(q, op)
    ensures Apply(q, op) == Synced(Unsynced(q, op), if op.SetMax? then op.n else q.maxConcurrent)
  {
  }

  lemma SyncKeepsCounts(items: seq<Item>, n: int)
    ensures CountIf(Sync(items, n), InPlay) == CountIf(items, InPlay)
    ensures CountIf(Sync(items, n), Unfinished) == CountIf(items, Unfinished)
    ensures CountIf(Sync(items, n), HoldsSlot) == CountIf(items, HoldsSlot)
  {
    CountSame(Sync(items, n), items, InPlay, InPlay);
    CountSame(Sync(items, n), items, Unfinished, Unfinished);
    CountSame(Sync(items, n), items, HoldsSlot, HoldsSlot);
  }

  /** A steady step takes a finished item out of every count it is in, and changes no count otherwise. */
  lemma SteadyCounts(q: Queue, op: Op, p: Item -> bool)
    requires Steady(q, op) && p in {InPlay, Unfinished, HoldsSlot}
    ensures CountIf(Unsynced(q, op), p) ==
            CountIf(q.items, p) - if op.MarkDone? then Flag(p(q.items[IndexOf(q.items, op.id)])) else 0
  {
    match op
    case MarkDone(id) =>
      var k := IndexOf(q.items, id);
      CountAround(q.items, k, q.items[k].(status := Done), p);
    case Register(id, priority, _, _) =>
      var k := IndexOf(q.items, id);
      CountAround(q.items, k, q.items[k].(priority := priority), p);
    case _ =>
  }

  lemma SteadyStep(q: Queue, op: Op)
    requires Good(q) && q.maxConcurrent >= 1 && Steady(q, op)
    ensures var t := Apply(q, op);
            && Good(t) && t.maxConcurrent >= 1
            && CountIf(t.items, InPlay) == CountIf(q.items, InPlay) - Flag(op.MarkDone?)
  {
    OpKeepsGood(q, op);
    SteadySyncs(q, op);
    SteadyCounts(q, op, InPlay);
    SyncKeepsCounts(Unsynced(q, op), Apply(q, op).maxConcurrent);
  }

  /** In every steady run each markDone takes exactly one item out of play. While an item is in play something runs;
      when none is, nothing runs and every eligible item is done. */
  lemma {:induction false} Progress(q: Queue, ops: seq<Op>)
    requires Good(q) && q.maxConcurrent >= 1 && SteadyRun(q, ops)
    ensures var t := Exec(q, ops);
            && Good(t) && t.maxConcurrent >= 1
            && CountIf(t.items, InPlay) == CountIf(q.items, InPlay) - Finishes(ops)
            && (Finishes(ops) < CountIf(q.items, InPlay) <==> SomethingRuns(t))
            && (Finishes(ops) == CountIf(q.items, InPlay) ==>
                  forall i :: 0 <= i < |t.items| ==> !t.items[i].status.Running? && !Unfinished(t.items[i]))
    decreases |ops|
  {
    if ops == [] {
      CountZero(q.items, InPlay);
      assert forall i :: 0 <= i < |q.items| && !InPlay(q.items[i]) ==>
               !q.items[i].status.Running? && !Unfinished(q.items[i]);
      NeverStuck(q);
    } else {
      SteadyStep(q, ops[0]);
      Progress(Apply(q, ops[0]), ops[1..]);
    }
  }

  /* ---------- slots that are never given back ---------- */

  /** The hook marks an item done only while it is enabled, and re-registers it. */
  predicate ByHook(q: Queue, op: Op) {
    Steady(q, op) && !op.SetMax? && (op.MarkDone? ==> q.items[IndexOf(q.items, op.id)].isEligible)
  }

  predicate HookRun(q: Queue, ops: seq<Op>)
    decreases |ops|
  {
    ops == [] || (ByHook(q, ops[0]) && HookRun(Apply(q, ops[0]), ops[1..]))
  }

  predicate NoneWaits(items: seq<Item>) { forall i :: 0 <= i < |items| ==> !items[i].Waiting() }

  /** A slot is left that eligible items can use, or none of them needs one. */
  predicate SlotLeft(q: Queue) { CountIf(q.items, HoldsSlot) < q.maxConcurrent || NoneWaits(q.items) }

  predicate AllFinished(q: Queue) { forall i :: 0 <= i < |q.items| ==> !Unfinished(q.items[i]) }

  ghost predicate CanFinish(q: Queue) { exists ops :: HookRun(q, ops) && AllFinished(Exec(q, ops)) }

  lemma FullMeansNoStart(items: seq<Item>, n: int)
    requires CountIf(items, HoldsSlot) >= n || NoneWaits(items)
    ensures Sync(items, n) == items
  {
    CountAtMost(items, HoldsSlot, IsRunning);
    CountIs(items);
  }

  lemma HookStep(q: Queue, op: Op)
    requires Good(q) && ByHook(q, op)
    ensures var t := Apply(q, op);
            && Good(t) && t.maxConcurrent == q.maxConcurrent && (SlotLeft(t) <==> SlotLeft(q))
            && CountIf(t.items, Unfinished) == CountIf(q.items, Unfinished) - Flag(op.MarkDone?)
  {
    var u, n := Unsynced(q, op), q.maxConcurrent;
    OpKeepsGood(q, op);
    SteadySyncs(q, op);
    SteadyCounts(q, op, Unfinished);
    SteadyCounts(q, op, HoldsSlot);
    SyncKeepsCounts(u, n);
    assert forall i :: 0 <= i < |u| ==> u[i].Waiting() == q.items[i].Waiting();
    if CountIf(q.items, HoldsSlot) >= n || NoneWaits(q.items) {
      FullMeansNoStart(u, n);
      if i :| 0 <= i < |q.items| && q.items[i].Waiting() { assert u[i].Waiting(); }
    }
  }

  /** With a slot left, an eligible item runs as long as one is unfinished. */
  lemma EligibleRuns(q: Queue) returns (id: string)
    requires Good(q) && SlotLeft(q) && !AllFinished(q)
    ensures ByHook(q, MarkDone(id))
  {
    var i :| 0 <= i < |q.items| && Unfinished(q.items[i]);
    if forall j :: 0 <= j < |q.items| && q.items[j].status.Running? ==> !q.items[j].isEligible {
      assert q.items[i].Waiting();
      CountIs(q.items);
      CountSame(q.items, q.items, IsRunning, HoldsSlot);
      assert false;
    }
    var j :| 0 <= j < |q.items| && q.items[j].status.Running? && q.items[j].isEligible;
    RunsMeaning(q, j);
    id := q.items[j].id;
  }

  /** Whatever the hook does: a slot is left afterwards exactly when one was left before, each markDone finishes one
      eligible item, and with a slot left it can go on until all of them are finished. */
  lemma {:induction false} HookProgress(q: Queue, ops: seq<Op>)
    requires Good(q) && HookRun(q, ops)
    ensures var t := Exec(q, ops);
            && Good(t) && (SlotLeft(t) <==> SlotLeft(q))
            && CountIf(t.items, Unfinished) == CountIf(q.items, Unfinished) - Finishes(ops)
            && (AllFinished(t) <==> Finishes(ops) == CountIf(q.items, Unfinished))
            && (SlotLeft(q) && !AllFinished(t) ==> exists id :: ByHook(t, MarkDone(id)))
    decreases |ops|
  {
    if ops == [] {
      CountZero(q.items, Unfinished);
      if SlotLeft(q) && !AllFinished(q) { var id := EligibleRuns(q); }
    } else {
      HookStep(q, ops[0]);
      HookProgress(Apply(q, ops[0]), ops[1..]);
    }
  }

  lemma {:induction false} FinishAll(q: Queue) returns (ops: seq<Op>)
    requires Good(q) && SlotLeft(q)
    ensures HookRun(q, ops) && AllFinished(Exec(q, ops))
    decreases CountIf(q.items, Unfinished)
  {
    if AllFinished(q) {
      ops := [];
    } else {
      var id := EligibleRuns(q);
      HookStep(q, MarkDone(id));
      var rest := FinishAll(Apply(q, MarkDone(id)));
      ops := [MarkDone(id)] + rest;
    }
  }

  /** All eligible items can be finished exactly when fewer slots than the cap are held by running items that are no
      longer eligible, or no eligible item waits. */
  lemma CanFinishIff(q: Queue)
    requires Good(q)
    ensures CanFinish(q) <==> CountIf(q.items, HoldsSlot) < q.maxConcurrent || NoneWaits(q.items)
  {
    if SlotLeft(q) {
      var ops := FinishAll(q);
    } else {
      forall ops | HookRun(q, ops) ensures !AllFinished(Exec(q, ops)) {
        HookProgress(q, ops);
        var t := Exec(q, ops);
        var i :| 0 <= i < |t.items| && t.items[i].Waiting();
        assert Unfinished(t.items[i]);
      }
    }
  }

  lemma ExecThree(q: Queue, a: Op, b: Op, c: Op)
    ensures Exec(q, [a, b, c]) == Apply(Apply(Apply(q, a), b), c)
  {
    assert [a, b, c][1..] == [b, c] && [b, c][1..] == [c] && [c][1..] == [];
    assert Exec(Apply(Apply(q, a), b), [c]) == Apply(Apply(Apply(q, a), b), c);
  }

  lemma OnlyItemStarts(x: Item)
    requires x.Waiting()
    ensures Sync([x], 1) == [x.(status := Running)]
  {
    assert RunningSet([x]) == {} && Ahead([x], 0) == {};
    assert RunningCount([x]) == 0 && Rank([x], 0) == 0;
    assert Promoted([x], 1, 0);
  }

  /** An item that is disabled while it runs keeps the only slot: the next one waits for ever. */
  lemma DisabledItemKeepsSlot(a: string, b: string, priority: int)
    requires a != b
    ensures var q := Exec(Queue([], 1), [Register(a, priority, true, a), Register(a, priority, false, a),
                                         Register(b, priority, true, b)]);
            && q.items == [Item(a, priority, false, a, Running), Item(b, priority, true, b, Queued)]
            && Good(q) && !CanFinish(q)
  {
    var x, y := Item(a, priority, true, a, Queued), Item(b, priority, true, b, Queued);
    var z := x.(isEligible := false, status := Running);
    var ra, rz, rb := Register(a, priority, true, a), Register(a, priority, false, a), Register(b, priority, true, b);
    var q0 := Queue([], 1);
    var q1 := Apply(q0, ra);
    assert [] + [x] == [x];
    OnlyItemStarts(x);
    var q2 := Apply(q1, rz);
    assert q2.items == [z];
    assert [z][1..] == [] && IndexOf([z], b) == 1 && [z] + [y] == [z, y];
    assert [z, y][..1] == [z] && [z][..0] == [] && HoldsSlot(z);
    assert CountIf([z], HoldsSlot) == 1;
    FullMeansNoStart([z, y], 1);
    OpKeepsGood(q0, ra);
    OpKeepsGood(q1, rz);
    OpKeepsGood(q2, rb);
    ExecThree(q0, ra, rz, rb);
    assert [z, y][1].Waiting();
    CanFinishIff(Apply(q2, rb));
  }

  /* ---------- the scheduler object ---------- */

  /** The items after the first `k` of `candidates` were started one by one. */
  function Started(items: seq<Item>, candidates: seq<nat>, k: nat): seq<Item>
    requires k <= |candidates|
  {
    seq(|items|, i requires 0 <= i < |items| =>
          if i in candidates[..k] then items[i].(status := Running) else items[i])
  }

  /** Starting the candidates one by one until the slots are full is the declarative synchronisation. */
  lemma AllStarted(items: seq<Item>, maxConcurrent: int)
    ensures var s := WaitingList(items, |items|);
            && Slots(items, maxConcurrent) <= |s|
            && Started(items, s, Slots(items, maxConcurrent)) == Sync(items, maxConcurrent)
  {
    var s, n := WaitingList(items, |items|), Slots(items, maxConcurrent);
    WaitingRanks(items);
    StartedAre(items, maxConcurrent, s);
    forall i: nat | i < |items| ensures i in s[..n] <==> Promoted(items, maxConcurrent, i) {
      assert i in ToSet(s[..n]) <==> i in s[..n];
    }
  }

  lemma OneMoreStarted(items: seq<Item>, candidates: seq<nat>, k: nat)
    requires k < |candidates| && candidates[k] < |items|
    ensures var i := candidates[k];
            var before := Started(items, candidates, k);
            && before[i].(status := Running) == items[i].(status := Running)
            && before[i := before[i].(status := Running)] == Started(items, candidates, k + 1)
  {
    assert candidates[..k + 1] == candidates[..k] + [candidates[k]];
  }

  class DashboardQueryScheduler {
    var items: seq<Item>
    var maxConcurrent: int

    constructor (n: int)
      ensures AsQueue() == Queue([], n) && Good(AsQueue())
    {
      items, maxConcurrent := [], n;
    }

    function AsQueue(): Queue
      reads this
    {
      Queue(items, maxConcurrent)
    }

    method SyncQueue()
      modifies this`items
      ensures AsQueue() == Synced(old(items), maxConcurrent)
    {
      ghost var first := items;
      var runningCount := CountRunningItems();
      var candidates := WaitingList(items, |items|);
      WaitingRanks(first);
      assert items == Started(first, candidates, 0);
      var k := 0;
      while k < |candidates| && runningCount < maxConcurrent
        invariant 0 <= k <= |candidates|
        invariant runningCount == RunningCount(first) + k
        invariant k > 0 ==> runningCount <= maxConcurrent
        invariant items == Started(first, candidates, k)
      {
        var candidate := candidates[k];
        OneMoreStarted(first, candidates, k);
        items := items[candidate := items[candidate].(status := Running)];
        runningCount := runningCount + 1;
        k := k + 1;
      }
      assert k == Slots(first, maxConcurrent);
      AllStarted(first, maxConcurrent);
    }

    method CountRunningItems() returns (runningCount: nat)
      ensures runningCount == RunningCount(items)
    {
      runningCount := 0;
      for i := 0 to |items|
        invariant runningCount == CountIf(items[..i], IsRunning)
      {
        assert items[..i + 1][..i] == items[..i];
        if items[i].status.Running? { runningCount := runningCount + 1; }
      }
      assert items[..|items|] == items;
      CountIs(items);
    }

    method Register(id: string, priority: int, isEligible: bool, runKey: string)
      modifies this`items
      ensures AsQueue() == Apply(old(AsQueue()), Op.Register(id, priority, isEligible, runKey))
    {
      var k := IndexOf(items, id);
      if k == |items| {
        items := items + [Item(id, priority, isEligible, runKey, Queued)];
        SyncQueue();
        return;
      }
      var existing := items[k];
      var didRunKeyChange := existing.runKey != runKey;
      var shouldRequeue := didRunKeyChange && existing.status.Done?;
      if existing.priority != priority || existing.isEligible != isEligible || didRunKeyChange || shouldRequeue {
        items := items[k := existing.(priority := priority, isEligible := isEligible, runKey := runKey)];
        if shouldRequeue { items := items[k := items[k].(status := Queued)]; }
      }
      ghost var status := if shouldRequeue then Queued else existing.status;
      assert items == old(items)[k := Item(id, priority, isEligible, runKey, status)];
      SyncQueue();
    }

    method Unregister(id: string)
      modifies this`items
      ensures AsQueue() == Apply(old(AsQueue()), Op.Unregister(id))
    {
      var k := IndexOf(items, id);
      if k == |items| { return; }
      var existing := items[k];
      items := items[..k] + items[k + 1..];
      if existing.status.Running? { SyncQueue(); }
    }

    method MarkDone(id: string)
      modifies this`items
      ensures AsQueue() == Apply(old(AsQueue()), Op.MarkDone(id))
    {
      var k := IndexOf(items, id);
      if k == |items| || items[k].status.Done? { return; }
      items := items[k := items[k].(status := Done)];
      SyncQueue();
    }

    method ResetQueue()
      modifies this`items
      ensures AsQueue() == Apply(old(AsQueue()), Reset)
    {
      ghost var first := items;
      for i := 0 to |items|
        invariant |items| == |first|
        invariant forall j :: 0 <= j < i ==> items[j] == first[j].(status := Queued)
        invariant forall j :: i <= j < |items| ==> items[j] == first[j]
      {
        if !items[i].status.Queued? { items := items[i := items[i].(status := Queued)]; }
      }
      assert items == Requeued(first);
      SyncQueue();
    }

    method SetMaxConcurrent(n: int)
      modifies this
      ensures AsQueue() == Apply(old(AsQueue()), SetMax(n))
    {
      maxConcurrent := n;
      SyncQueue();
    }

    method CanFetch(id: string) returns (b: bool)
      ensures b == Runs(AsQueue(), id)
    {
      var k := IndexOf(items, id);
      return k < |items| && items[k].status.Running?;
    }
  }
}
