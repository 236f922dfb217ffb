/** Batched deletion of traces from the pending-deletions table of one project (worker/src/queues/traceDelete.ts). */
module TraceDeletion {
  import opened Arithmetic
  import opened Collections

  type Id = nat

  datatype Pending = Pending(objectId: Id, isDeleted: bool)

  /** The project's trace rows and what each store has been told to delete. */
  datatype State = State(pending: seq<Pending>, postgres: set<Id>, clickhouse: set<Id>)

  /** One job: its event ids, the order in which the table lists open rows, the skip rule's answer
      and whether each store's deletion succeeds. */
  datatype Job = Job(eventTraceIds: seq<Id>, listing: seq<Id>, skip: bool, postgresOk: bool, clickhouseOk: bool)

  /* ---------- selection ---------- */

  /** First occurrences in order, as in `Array.from(new Set(...))`. */
  function Unique(s: seq<Id>): seq<Id> {
    if s == [] then []
    else
      var front := Unique(Init(s));
      if s[|s| - 1] in front then front else front + [s[|s| - 1]]
  }

  predicate MarkedDeleted(pending: seq<Pending>, id: Id) {
    exists k :: 0 <= k < |pending| && pending[k] == Pending(id, true)
  }

  function OpenIds(pending: seq<Pending>): set<Id> {
    set k | 0 <= k < |pending| && !pending[k].isDeleted :: pending[k].objectId
  }

  function NotDeletedYet(pending: seq<Pending>, eventTraceIds: seq<Id>): seq<Id> {
    if eventTraceIds == [] then []
    else
      var id := eventTraceIds[|eventTraceIds| - 1];
      NotDeletedYet(pending, Init(eventTraceIds)) + if MarkedDeleted(pending, id) then [] else [id]
  }

  function AllTraceIds(pending: seq<Pending>, job: Job): seq<Id> {
    Unique(job.listing + NotDeletedYet(pending, job.eventTraceIds))
  }

  function Selected(pending: seq<Pending>, job: Job, batchSize: nat): seq<Id> {
    var all := AllTraceIds(pending, job);
    if |all| <= batchSize then all else all[..batchSize]
  }

  /* ---------- one job ---------- */

  predicate Listed(pending: seq<Pending>, job: Job) { ToSet(job.listing) == OpenIds(pending) }

  function Mark(pending: seq<Pending>, ids: seq<Id>): seq<Pending> {
    seq(|pending|, k requires 0 <= k < |pending| =>
          if pending[k].objectId in ids then Pending(pending[k].objectId, true) else pending[k])
  }

  predicate Works(job: Job) { !job.skip && job.postgresOk && job.clickhouseOk }

  function Step(s: State, job: Job, batchSize: nat): State {
    var ids := Selected(s.pending, job, batchSize);
    if AllTraceIds(s.pending, job) == [] || job.skip then s
    else
      State(if job.postgresOk && job.clickhouseOk then Mark(s.pending, ids) else s.pending,
            s.postgres + (if job.postgresOk then ToSet(ids) else {}),
            s.clickhouse + (if job.clickhouseOk then ToSet(ids) else {}))
  }

  function Run(s: State, jobs: seq<Job>, batchSize: nat): State
    decreases |jobs|
  {
    if jobs == [] then s else Run(Step(s, jobs[0], batchSize), jobs[1..], batchSize)
  }

  /** Every job lists exactly the rows open when it starts. */
  predicate AllListed(s: State, jobs: seq<Job>, batchSize: nat)
    decreases |jobs|
  {
    jobs != [] ==> Listed(s.pending, jobs[0]) && AllListed(Step(s, jobs[0], batchSize), jobs[1..], batchSize)
  }

  function Working(jobs: seq<Job>): nat {
    if jobs == [] then 0 else (if Works(jobs[0]) then 1 else 0) + Working(jobs[1..])
  }

  /* ---------- the selection ---------- */

  lemma {:induction false} UniqueMeaning(s: seq<Id>)
    ensures Distinct(Unique(s)) && ToSet(Unique(s)) == ToSet(s)
  {
    if s != [] {
      UniqueMeaning(Init(s));
      var front, x := Unique(Init(s)), s[|s| - 1];
      assert s == Init(s) + [x];
      assert ToSet(s) == ToSet(Init(s)) + {x};
      assert x in front <==> x in ToSet(front);
      assert ToSet(front + [x]) == ToSet(front) + {x};
    }
  }

  /** Of several occurrences the first one counts: what is kept before an element are the earlier ones. */
  lemma UniqueInOrder(s: seq<Id>, i: nat, j: nat)
    requires i < j < |s| && s[i] != s[j] && s[j] !in s[..j] && s[i] !in s[..i]
    ensures exists k, l :: 0 <= k < l < |Unique(s)| && Unique(s)[k] == s[i] && Unique(s)[l] == s[j]
  {
    UniquePrefix(s[..j], s[j..]);
    UniqueMeaning(s[..j]);
    UniqueMeaning(s[..j + 1]);
    UniquePrefix(s[..j + 1], s[j + 1..]);
    assert s[..j] + s[j..] == s && s[..j + 1] + s[j + 1..] == s;
    assert Init(s[..j + 1]) == s[..j];
    assert s[i] in s[..j] && s[i] in ToSet(Unique(s[..j]));
    var k :| 0 <= k < |Unique(s[..j])| && Unique(s[..j])[k] == s[i];
    assert s[j] !in ToSet(Unique(s[..j]));
    assert Unique(s[..j + 1]) == Unique(s[..j]) + [s[j]];
    assert Unique(s)[|Unique(s[..j])|] == s[j];
  }

  lemma {:induction false} UniquePrefix(a: seq<Id>, b: seq<Id>)
    ensures Unique(a) <= Unique(a + b)
  {
    if b == [] {
      assert a + b == a;
    } else {
      assert Init(a + b) == a + Init(b);
      UniquePrefix(a, Init(b));
    }
  }

  lemma {:induction false} NotDeletedYetMeaning(pending: seq<Pending>, ids: seq<Id>)
    ensures forall id :: id in NotDeletedYet(pending, ids) <==> id in ids && !MarkedDeleted(pending, id)
  {
    if ids != [] {
      NotDeletedYetMeaning(pending, Init(ids));
      assert ids == Init(ids) + [ids[|ids| - 1]];
    }
  }

  /** A job deletes at most one batch of distinct traces, none of which is already done with. */
  lemma SelectionIsSafe(pending: seq<Pending>, job: Job, batchSize: nat)
    requires Listed(pending, job)
    ensures var ids := Selected(pending, job, batchSize);
            && |ids| <= batchSize && Distinct(ids)
            && forall id :: id in ids ==>
                 id in OpenIds(pending) || (id in job.eventTraceIds && !MarkedDeleted(pending, id))
  {
    var events := NotDeletedYet(pending, job.eventTraceIds);
    UniqueMeaning(job.listing + events);
    NotDeletedYetMeaning(pending, job.eventTraceIds);
    forall id | id in Selected(pending, job, batchSize)
      ensures id in OpenIds(pending) || (id in job.eventTraceIds && !MarkedDeleted(pending, id))
    {
      assert id in ToSet(AllTraceIds(pending, job));
      assert id in ToSet(job.listing) || id in events;
    }
  }

  /** Pending traces go first: a batch takes as many of them as fit. */
  lemma PendingFirst(pending: seq<Pending>, job: Job, batchSize: nat)
    requires Listed(pending, job)
    ensures var ids := ToSet(Selected(pending, job, batchSize)); var open := OpenIds(pending);
            if |open| <= batchSize then open <= ids else ids <= open && |ids| == batchSize
  {
    var first, all := Unique(job.listing), AllTraceIds(pending, job);
    UniqueMeaning(job.listing);
    UniqueMeaning(job.listing + NotDeletedYet(pending, job.eventTraceIds));
    UniquePrefix(job.listing, NotDeletedYet(pending, job.eventTraceIds));
    DistinctSize(first);
    var ids := Selected(pending, job, batchSize);
    if |first| <= batchSize {
      assert first <= ids;
      forall id | id in OpenIds(pending) ensures id in ids {
        assert id in ToSet(first);
        var k :| 0 <= k < |first| && first[k] == id;
        assert ids[k] == id;
      }
    } else {
      assert ids == first[..batchSize];
      DistinctSize(ids);
      forall id | id in ids ensures id in OpenIds(pending) { assert id in ToSet(first); }
    }
  }

  /** Event ids without a row of their own are all served exactly when everything fits into one batch,
      unless there are none. */
  lemma EventsServedIff(pending: seq<Pending>, job: Job, batchSize: nat)
    requires Listed(pending, job)
    ensures (forall id :: id in NotDeletedYet(pending, job.eventTraceIds) && id !in OpenIds(pending)
                          ==> id in Selected(pending, job, batchSize))
            <==> (ToSet(NotDeletedYet(pending, job.eventTraceIds)) <= OpenIds(pending)
                  || |AllTraceIds(pending, job)| <= batchSize)
  {
    var events, all, first := NotDeletedYet(pending, job.eventTraceIds), AllTraceIds(pending, job), Unique(job.listing);
    UniqueMeaning(job.listing);
    UniqueMeaning(job.listing + events);
    UniquePrefix(job.listing, events);
    assert ToSet(all) == ToSet(job.listing) + ToSet(events);
    if |all| <= batchSize {
      forall id | id in events ensures id in all { assert id in ToSet(all); }
    } else if !(ToSet(events) <= OpenIds(pending)) {
      var last := all[|all| - 1];
      LastIsNew(job.listing, events);
      assert last in ToSet(all) && last !in all[..batchSize];
    }
  }

  lemma LastIsNew(a: seq<Id>, b: seq<Id>)
    requires !(ToSet(b) <= ToSet(a))
    ensures var u := Unique(a + b); u != [] && u[|u| - 1] !in a && u[|u| - 1] in b
  {
    var u, first := Unique(a + b), Unique(a);
    UniqueMeaning(a);
    UniqueMeaning(a + b);
    UniquePrefix(a, b);
    var x :| x in ToSet(b) && x !in ToSet(a);
    assert x in ToSet(a + b) && x in u;
    assert |u| == |first| ==> u == first;
    var last := u[|u| - 1];
    assert last in ToSet(a + b) && last !in ToSet(first);
  }

  /* ---------- draining ---------- */

  lemma MarkCloses(pending: seq<Pending>, ids: seq<Id>)
    ensures OpenIds(Mark(pending, ids)) == OpenIds(pending) - ToSet(ids)
  {
    var marked := Mark(pending, ids);
    forall id ensures id in OpenIds(marked) <==> id in OpenIds(pending) - ToSet(ids) {
      if id in OpenIds(marked) {
        var k :| 0 <= k < |marked| && !marked[k].isDeleted && marked[k].objectId == id;
        assert pending[k] == marked[k];
      }
      if id in OpenIds(pending) - ToSet(ids) {
        var k :| 0 <= k < |pending| && !pending[k].isDeleted && pending[k].objectId == id;
        assert marked[k] == pending[k];
      }
    }
  }

  function Less(d: nat, b: nat): nat { if d <= b then 0 else d - b }

  /** What one job does: nothing without traces or when it is skipped; else it deletes the selected traces, and no
      others, from each store that answers, and marks their rows, and no others, exactly when both did. */
  lemma StepMeaning(s: State, job: Job, batchSize: nat)
    ensures var t, ids := Step(s, job, batchSize), Selected(s.pending, job, batchSize);
            && (job.skip || AllTraceIds(s.pending, job) == [] ==> t == s)
            && (!job.skip ==>
                  && (forall id :: id in t.postgres <==> id in s.postgres || (job.postgresOk && id in ids))
                  && (forall id :: id in t.clickhouse <==> id in s.clickhouse || (job.clickhouseOk && id in ids)))
            && |t.pending| == |s.pending|
            && forall k :: 0 <= k < |s.pending| ==>
                 && t.pending[k].objectId == s.pending[k].objectId
                 && (t.pending[k].isDeleted <==>
                       || s.pending[k].isDeleted
                       || (!job.skip && job.postgresOk && job.clickhouseOk && s.pending[k].objectId in ids))
  {
  }

  /** A working job lowers the number of distinct pending traces by a batch, or to zero; no other job does anything
      to it. */
  lemma JobDrains(s: State, job: Job, batchSize: nat)
    requires Listed(s.pending, job)
    ensures |OpenIds(Step(s, job, batchSize).pending)|
            == if Works(job) then Less(|OpenIds(s.pending)|, batchSize) else |OpenIds(s.pending)|
  {
    var open, all := OpenIds(s.pending), AllTraceIds(s.pending, job);
    var ids := Selected(s.pending, job, batchSize);
    PendingFirst(s.pending, job, batchSize);
    MarkCloses(s.pending, ids);
    if all == [] {
      UniqueMeaning(job.listing + NotDeletedYet(s.pending, job.eventTraceIds));
      assert ToSet(all) == {};
      assert open <= ToSet(job.listing + NotDeletedYet(s.pending, job.eventTraceIds));
    } else if |open| <= batchSize {
      assert open - ToSet(ids) == {};
    } else {
    }
  }

  /** Whatever event ids the jobs carry, `n` working jobs leave `d - n * batchSize` of `d` distinct pending traces,
      and failing or skipped jobs in between change nothing. */
  lemma {:induction false} RunDrains(s: State, jobs: seq<Job>, batchSize: nat)
    requires AllListed(s, jobs, batchSize)
    ensures |OpenIds(Run(s, jobs, batchSize).pending)| == Less(|OpenIds(s.pending)|, Working(jobs) * batchSize)
    decreases |jobs|
  {
    if jobs != [] {
      JobDrains(s, jobs[0], batchSize);
      RunDrains(Step(s, jobs[0], batchSize), jobs[1..], batchSize);
      LessTwice(|OpenIds(s.pending)|, batchSize, Working(jobs[1..]));
    }
  }

  lemma LessTwice(d: nat, b: nat, n: nat)
    ensures (n + 1) * b == n * b + b
    ensures Less(Less(d, b), n * b) == Less(d, (n + 1) * b)
  {
    assert (n + 1) * b == n * b + b;
    assert n * b >= 0;
  }

  /** So exactly ceil(d / batchSize) working jobs drain the table. */
  lemma DrainedIff(s: State, jobs: seq<Job>, batchSize: nat)
    requires batchSize > 0 && AllListed(s, jobs, batchSize)
    ensures OpenIds(Run(s, jobs, batchSize).pending) == {}
            <==> Working(jobs) >= (|OpenIds(s.pending)| + batchSize - 1) / batchSize
  {
    RunDrains(s, jobs, batchSize);
    Ceiling(|OpenIds(s.pending)|, batchSize, Working(jobs));
  }

  lemma Ceiling(d: nat, b: nat, n: nat)
    requires b > 0
    ensures n * b >= d <==> n >= (d + b - 1) / b
  {
    var q := (d + b - 1) / b;
    assert d + b - 1 == q * b + (d + b - 1) % b;
    Monotone(q, n, b);
    Monotone(n + 1, q, b);
    assert (n + 1) * b == n * b + b;
  }

  /* ---------- marked rows are gone ---------- */

  /** A row is marked deleted only when both stores were told to delete its trace. */
  predicate MarkedAreGone(s: State) {
    forall k :: 0 <= k < |s.pending| && s.pending[k].isDeleted ==>
      s.pending[k].objectId in s.postgres && s.pending[k].objectId in s.clickhouse
  }

  lemma {:induction false} RunKeepsMarkedGone(s: State, jobs: seq<Job>, batchSize: nat)
    requires MarkedAreGone(s)
    ensures MarkedAreGone(Run(s, jobs, batchSize))
    decreases |jobs|
  {
    if jobs != [] {
      StepKeepsMarkedGone(s, jobs[0], batchSize);
      RunKeepsMarkedGone(Step(s, jobs[0], batchSize), jobs[1..], batchSize);
    }
  }

  lemma StepKeepsMarkedGone(s: State, job: Job, batchSize: nat)
    requires MarkedAreGone(s)
    ensures MarkedAreGone(Step(s, job, batchSize))
    ensures !Works(job) ==> Step(s, job, batchSize).pending == s.pending
  {
    var t, ids := Step(s, job, batchSize), Selected(s.pending, job, batchSize);
    forall k | 0 <= k < |t.pending| && t.pending[k].isDeleted
      ensures t.pending[k].objectId in t.postgres && t.pending[k].objectId in t.clickhouse
    {
      if t.pending[k] != s.pending[k] { assert t.pending[k].objectId in ToSet(ids); }
    }
  }

  /* ---------- the processor ---------- */

  class TraceDeleteProcessor {
    const batchSize: nat
    var pending: seq<Pending>
    var postgres: set<Id>
    var clickhouse: set<Id>

    constructor (n: nat, rows: seq<Pending>)
      ensures batchSize == n && AsState() == State(rows, {}, {})
    {
      batchSize := n;
      pending, postgres, clickhouse := rows, {}, {};
    }

    function AsState(): State
      reads this
    {
      State(pending, postgres, clickhouse)
    }

    /** Returns false when the job throws and will be retried. */
    method Process(job: Job) returns (ok: bool)
      requires Listed(pending, job)
      modifies this
      ensures AsState() == Step(old(AsState()), job, batchSize)
      ensures !ok ==> pending == old(pending)
    {
      var toBeDeletedTraces := job.listing;
      var toBeDeletedEventTraceIds := NotDeletedYet(pending, job.eventTraceIds);
      var allTraceIds := Unique(toBeDeletedTraces + toBeDeletedEventTraceIds);
      if |allTraceIds| == 0 { return true; }
      var traceIdsToDelete := if |allTraceIds| <= batchSize then allTraceIds else allTraceIds[..batchSize];
      if job.skip { return true; }
      if job.postgresOk { postgres := postgres + ToSet(traceIdsToDelete); }
      if job.clickhouseOk { clickhouse := clickhouse + ToSet(traceIdsToDelete); }
      if !job.postgresOk || !job.clickhouseOk { return false; }
      if |toBeDeletedTraces| > 0 {
        pending := Mark(pending, traceIdsToDelete);
      } else {
        NothingOpen(pending, traceIdsToDelete);
      }
      return true;
    }
  }

  lemma NothingOpen(pending: seq<Pending>, ids: seq<Id>)
    requires OpenIds(pending) == {}
    ensures Mark(pending, ids) == pending
  {
    forall k | 0 <= k < |pending| ensures pending[k].isDeleted {
      var id := pending[k].objectId;
      assert !pending[k].isDeleted ==> id in OpenIds(pending);
    }
  }
}
