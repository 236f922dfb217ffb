/** The write order of the ingestion protocol: what it means for one write to be in order, that the last write on an
    entity loses no row exactly when it is in order, whatever came before, and a run in which it is not. */
module IngestionOrder {
  import opened Wrappers
  import opened RawEvents
  import opened Ingestion
  import opened IngestionInvariant
  import opened IngestionTheorems
  import opened IngestionLimits

  /** A write is out of order exactly when the newest accepted snapshot is the rebuild of a longer history: racing
      rebuilds of the same history are in order, whatever other entities did in between. */
  lemma OrderMeaning(s: State, e: Entity, n: nat)
    requires n <= Longest(s, e) <= |s.raw|
    ensures NotOlder(s, e, n) <==> History(s.raw[..n], e) == History(s.raw[..Longest(s, e)], e)
  {
    var seen := s.raw[..Longest(s, e)];
    assert seen[..n] == s.raw[..n];
    SameHistoryIff(seen, n, e);
  }

  /* ---------- the last work on an entity ---------- */

  /** No request, job, erase or unwritten run of `e` is in flight, apart from run `w`. */
  ghost predicate LastRun(s: State, w: nat, e: Entity) {
    && w in s.runs && s.runs[w].job.entity == e
    && (forall h :: h in s.appends ==> h.entity != e)
    && (forall q :: q in s.queue ==> q.job.entity != e)
    && (forall v :: v in s.runs && v != w && s.runs[v].job.entity == e ==> s.runs[v].HasWritten())
    && (forall x :: x in s.erases ==> x.entity != e)
  }

  /** No request, job, erase or unwritten run of `e` is in flight, apart from erase `x`. */
  ghost predicate LastErase(s: State, x: Erase, e: Entity) {
    && x in s.erases && x.entity == e
    && (forall h :: h in s.appends ==> h.entity != e)
    && (forall q :: q in s.queue ==> q.job.entity != e)
    && (forall v :: v in s.runs && s.runs[v].job.entity == e ==> s.runs[v].HasWritten())
    && (forall y :: y in s.erases && y != x ==> y.entity != e)
  }

  /** Storing a snapshot of `n` rows converges exactly when it is in order, if every row outside it is covered. */
  lemma StoredIff(s: State, t: State, e: Entity, n: nat)
    requires n <= |s.raw| && t.raw == s.raw && e in t.projection && t.projection[e].n == n
    requires forall i :: 0 <= i < |s.raw| && s.raw[i].entity == e ==> Covered(s, i) || i < n
    ensures Converged(t, e) <==> NotOlder(s, e, n)
  {
    SameHistoryIff(s.raw, n, e);
    NoEventsNoRows(s.raw, e);
  }

  /** A late write that is the last work on its entity loses no row exactly when it is in order: not older than the
      newest snapshot ever accepted, in whatever order the earlier ones were written. */
  lemma LateWriteIff(c: Config, s: State, w: nat)
    requires Inv(c, s) && At(s, w, ParentChecked) && LastRun(s, w, s.runs[w].job.entity)
    ensures var e := s.runs[w].job.entity;
            Converged(Apply(c, s, Write(w)), e) <==> NotOlder(s, e, s.runs[w].n)
  {
    var r, e := s.runs[w], s.runs[w].job.entity;
    assert RunOk(c, s, r);
    forall i | 0 <= i < |s.raw| && s.raw[i].entity == e ensures Covered(s, i) || i < r.n {
      assert Covered(s, i) || Owed(s, i);
      if !Covered(s, i) {
        var h := Handle(e, s.raw[i].origin.id);
        assert HasJob(s, h);
        assert HandleOf(r.job) == h && OwnRow(s.raw[i], h);
      }
    }
    StoredIff(s, Apply(c, s, Write(w)), e, r.n);
  }

  /** So does an erase that is the last work on its entity. */
  lemma LateEraseIff(c: Config, s: State, x: Erase)
    requires Inv(c, s) && LastErase(s, x, x.entity)
    ensures Converged(Apply(c, s, EraseRows(x)), x.entity) <==> NotOlder(s, x.entity, x.n)
  {
    forall i | 0 <= i < |s.raw| && s.raw[i].entity == x.entity ensures Covered(s, i) || i < x.n {
      assert Covered(s, i) || Owed(s, i);
    }
    StoredIff(s, Apply(c, s, EraseRows(x)), x.entity, x.n);
  }

  /* ---------- lost for good ---------- */

  /** Nothing that could store another snapshot of `e` is in flight. */
  ghost predicate Settled(s: State, e: Entity) {
    && (forall h :: h in s.appends ==> h.entity != e)
    && (forall q :: q in s.queue ==> q.job.entity != e)
    && (forall v :: v in s.runs && s.runs[v].job.entity == e ==> s.runs[v].HasWritten())
    && (forall x :: x in s.erases ==> x.entity != e)
  }

  /** A step that starts new work on `e`: a request, a deletion, or a job put back into a queue. */
  predicate StartsWork(s: State, a: Action, e: Entity) {
    match a
    case StampEvents(h, _, _) => h.entity == e
    case WriteTombstone(d) => d == e
    case Redeliver(q) => q.job.entity == e
    case Fail(w) => w in s.runs && s.runs[w].job.entity == e
    case _ => false
  }

  ghost predicate Undisturbed(c: Config, s: State, acts: seq<Action>, e: Entity)
    requires CanRun(c, s, acts)
    decreases |acts|
  {
    acts == [] || (!StartsWork(s, acts[0], e) && Undisturbed(c, Apply(c, s, acts[0]), acts[1..], e))
  }

  /** Same events, same snapshot length. */
  predicate SameContent(s: State, t: State, e: Entity) {
    && s.raw <= t.raw && EventsOf(t.raw, e) == EventsOf(s.raw, e)
    && (e in t.projection <==> e in s.projection)
    && (e in s.projection ==> t.projection[e].n == s.projection[e].n)
  }

  lemma OtherRows(raw: seq<Stored>, more: seq<Stored>, e: Entity)
    requires forall i :: 0 <= i < |more| ==> more[i].entity != e
    ensures EventsOf(raw + more, e) == EventsOf(raw, e)
  {
    NoRowsNoEvents(more, e);
    EventsOfAppend(raw, more, e);
  }

  lemma SettledRaw(c: Config, s: State, a: Action, e: Entity)
    requires Settled(s, e) && Enabled(c, s, a) && !StartsWork(s, a, e) && !ByWorker(a)
    ensures s.raw <= Apply(c, s, a).raw && EventsOf(Apply(c, s, a).raw, e) == EventsOf(s.raw, e)
  {
    match a
    case WriteRaw(h, _) => OtherRows(s.raw, StoreRows(h, s.appends[h].rows, s.clock), e);
    case WriteTombstone(d) => OtherRows(s.raw, [Stored(d, RawEvent(s.clock, d.id, true, 0), Deletion, s.clock)], e);
    case _ =>
  }

  lemma SettledOutside(c: Config, s: State, a: Action, e: Entity)
    requires Settled(s, e) && Enabled(c, s, a) && !StartsWork(s, a, e) && !ByWorker(a)
    ensures Settled(Apply(c, s, a), e)
  {
    OutsideSteps(c, s, a);
  }

  lemma TakenJob(c: Config, s: State, w: nat, q: Queued)
    requires Enabled(c, s, Take(w, q))
    ensures q in s.queue && Apply(c, s, Take(w, q)).runs[w].job == q.job
  {
  }

  lemma SettledRuns(c: Config, s: State, a: Action, e: Entity)
    requires Settled(s, e) && Enabled(c, s, a) && ByWorker(a)
    ensures var t := Apply(c, s, a); forall v :: v in t.runs && t.runs[v].job.entity == e ==> t.runs[v].HasWritten()
  {
    var t, w := Apply(c, s, a), WorkerOf(a);
    if a.Take? { TakenJob(c, s, a.w, a.q); } else { OwnRunKeepsJob(c, s, a); }
    forall v | v in t.runs && t.runs[v].job.entity == e ensures t.runs[v].HasWritten() {
      if v != w { OthersKeepRun(c, s, a, v); }
    }
  }

  lemma NoNewJobs(c: Config, s: State, a: Action)
    requires Enabled(c, s, a) && ByWorker(a) && !a.Redirect? && !a.Fail?
    ensures Apply(c, s, a).queue <= s.queue
  {
    match a
    case Take(_, _) =>
    case _ =>
  }

  lemma SettledQueue(c: Config, s: State, a: Action, e: Entity)
    requires Settled(s, e) && Enabled(c, s, a) && !StartsWork(s, a, e) && ByWorker(a)
    ensures forall q :: q in Apply(c, s, a).queue ==> q.job.entity != e
  {
    if a.Redirect? || a.Fail? {
      assert s.runs[a.w].job.entity != e;
    } else {
      NoNewJobs(c, s, a);
      forall q | q in Apply(c, s, a).queue ensures q in s.queue {}
    }
  }

  lemma SettledByWorkers(c: Config, s: State, a: Action, e: Entity)
    requires Settled(s, e) && Enabled(c, s, a) && !StartsWork(s, a, e) && ByWorker(a)
    ensures Settled(Apply(c, s, a), e)
  {
    WorkersKeepRows(c, s, a);
    SettledRuns(c, s, a, e);
    SettledQueue(c, s, a, e);
  }

  lemma ContentByWorkers(c: Config, s: State, a: Action, e: Entity)
    requires Settled(s, e) && Enabled(c, s, a) && ByWorker(a)
    ensures SameContent(s, Apply(c, s, a), e)
  {
    WorkersKeepRows(c, s, a);
    if a.Write? { assert s.runs[a.w].job.entity != e; }
  }

  lemma SettledSnapshot(c: Config, s: State, a: Action, e: Entity)
    requires Settled(s, e) && Enabled(c, s, a) && !ByWorker(a)
    ensures var t := Apply(c, s, a);
            (e in t.projection <==> e in s.projection) && (e in s.projection ==> t.projection[e].n == s.projection[e].n)
  {
    match a
    case EraseRows(x) => assert x.entity != e;
    case EraseProject(_) =>
    case _ => OthersKeepSnapshots(c, s, a);
  }

  lemma SettledStep(c: Config, s: State, a: Action, e: Entity)
    requires Settled(s, e) && Enabled(c, s, a) && !StartsWork(s, a, e)
    ensures Settled(Apply(c, s, a), e) && SameContent(s, Apply(c, s, a), e)
  {
    if ByWorker(a) {
      SettledByWorkers(c, s, a, e);
      ContentByWorkers(c, s, a, e);
    } else {
      SettledSnapshot(c, s, a, e);
      SettledRaw(c, s, a, e);
      SettledOutside(c, s, a, e);
    }
  }

  lemma SameVerdict(s: State, t: State, e: Entity)
    requires SameContent(s, t, e) && (e in s.projection ==> s.projection[e].n <= |s.raw|)
    ensures Converged(t, e) <==> Converged(s, e)
  {
    if e in s.projection { assert t.raw[..s.projection[e].n] == s.raw[..s.projection[e].n]; }
  }

  /** Until new work on `e` starts, what its projection has lost stays lost, and what it has it keeps. */
  lemma {:induction false} VerdictStays(c: Config, s: State, acts: seq<Action>, e: Entity)
    requires Settled(s, e) && CanRun(c, s, acts) && Undisturbed(c, s, acts, e)
    requires e in s.projection ==> s.projection[e].n <= |s.raw|
    ensures Converged(Exec(c, s, acts), e) <==> Converged(s, e)
    decreases |acts|
  {
    if acts != [] {
      var t := Apply(c, s, acts[0]);
      SettledStep(c, s, acts[0], e);
      SameVerdict(s, t, e);
      VerdictStays(c, t, acts[1..], e);
    }
  }

  lemma LastRunSettles(c: Config, s: State, w: nat)
    requires Inv(c, s) && At(s, w, ParentChecked) && LastRun(s, w, s.runs[w].job.entity)
    ensures var t, e := Apply(c, s, Write(w)), s.runs[w].job.entity;
            Settled(t, e) && e in t.projection && t.projection[e].n <= |t.raw|
  {
    assert RunOk(c, s, s.runs[w]);
  }

  /** The exact condition for the order the code does not keep: in every clocked run, when the last work on an
      entity is a write, its projection is the rebuild of its full history ever after, until new work starts, if and
      only if that write is not older than the newest snapshot accepted before it. */
  lemma LostForGoodIff(c: Config, now: int, before: seq<Action>, w: nat, after: seq<Action>)
    requires CanRun(c, Init(now), before) && Clocked(c, Init(now), before)
    requires var s := Exec(c, Init(now), before); At(s, w, ParentChecked) && LastRun(s, w, s.runs[w].job.entity)
    requires var s := Exec(c, Init(now), before);
             && CanRun(c, Apply(c, s, Write(w)), after)
             && Undisturbed(c, Apply(c, s, Write(w)), after, s.runs[w].job.entity)
    ensures var s := Exec(c, Init(now), before);
            var e := s.runs[w].job.entity;
            Converged(Exec(c, Apply(c, s, Write(w)), after), e) <==> NotOlder(s, e, s.runs[w].n)
  {
    var s := Exec(c, Init(now), before);
    RunKeeps(c, Init(now), before);
    LateWriteIff(c, s, w);
    LastRunSettles(c, s, w);
    VerdictStays(c, Apply(c, s, Write(w)), after, s.runs[w].job.entity);
  }

  /* ---------- an overtaken rebuild ---------- */

  function Overtaken(e: Entity, now: int): seq<Action> {
    RequestScript(Handle(e, 0), 0, 0) + StartScript(Job(e, 0, 0, now), 0) +
    (RequestScript(Handle(e, 1), 0, 1) + StartScript(Job(e, 0, 1, now), 1)) +
    (FinishScript(1) + FinishScript(0))
  }

  /** Of two rebuilds that have read, the later one lands first. */
  lemma LaterFirst(c: Config, s: State, e: Entity)
    requires c == Config(false, false, {})
    requires s.runs.Keys == {0, 1} && At(s, 0, HistoryRead) && At(s, 1, HistoryRead)
    requires s.runs[0].job.entity == e && s.runs[1].job.entity == e
    requires s.runs[0].n <= |s.raw| && s.runs[1].n <= |s.raw|
    ensures var acts := FinishScript(1) + FinishScript(0);
            && CanRun(c, s, acts)
            && var t := Exec(c, s, acts);
            && t == s.(projection := t.projection, newest := t.newest, runs := map[]) 
            && e in t.projection && t.projection[e].n == s.runs[0].n
  {
    var d1 := FinishRuns(c, s, 1);
    var s1 := Exec(c, s, FinishScript(1));
    var d0 := FinishRuns(c, s1, 0);
    Concat(c, s, FinishScript(1), FinishScript(0));
    assert s.runs - {1} - {0} == map[];
  }

  /** Two overlapping rebuilds of one entity, the older one landing last, leave the projection without
      the newer event for good: nothing is in flight and the history is not what the projection holds. */
  lemma OvertakenRebuildIsLost(e: Entity, now: int)
    ensures var c := Config(false, false, {});
            && CanRun(c, Init(now), Overtaken(e, now))
            && Quiescent(Exec(c, Init(now), Overtaken(e, now)))
            && !Converged(Exec(c, Init(now), Overtaken(e, now)), e)
  {
    var c, s := Config(false, false, {}), Init(now);
    var a0 := RequestScript(Handle(e, 0), 0, 0) + StartScript(Job(e, 0, 0, now), 0);
    var a1 := RequestScript(Handle(e, 1), 0, 1) + StartScript(Job(e, 0, 1, now), 1);
    RequestThenStart(c, s, e, 0);
    var s1 := Exec(c, s, a0);
    RequestThenStart(c, s1, e, 1);
    var s2 := Exec(c, s1, a1);
    LaterFirst(c, s2, e);
    Concat(c, s, a0, a1);
    Concat(c, s, a0 + a1, FinishScript(1) + FinishScript(0));
    var r0, r1 := RequestRow(Handle(e, 0), 0, now), RequestRow(Handle(e, 1), 1, now);
    assert s2.raw == [r0, r1] && s2.raw[..1] == [r0];
    TwoRowsDiffer(r0, r1);
  }

  /* ---------- newer than the row in place, and still too old ---------- */

  function ReadScript(e: Entity, b: nat, now: int): seq<Action> {
    RequestScript(Handle(e, b), 0, b) + StartScript(Job(e, 0, b, now), b)
  }

  /** The first `k` requests are made, and rebuild `b` has read `b + 1` rows. */
  ghost predicate Reading(s: State, e: Entity, k: nat) {
    && s.appends == map[] && s.queue == multiset{} && s.erases == {} && s.newest == map[] && s.seen == {}
    && s.watermark == map[]
    && |s.raw| == k && (forall i :: 0 <= i < k ==> s.raw[i].entity == e)
    && (forall h :: h in s.started ==> h.batch < k)
    && (forall b :: b in s.runs <==> 0 <= b < k)
    && (forall b :: 0 <= b < k ==> s.runs[b] == Run(Job(e, 0, b, s.clock), false, HistoryRead, b + 1, s.clock, false))
  }

  lemma OneMoreRead(c: Config, s: State, e: Entity, k: nat)
    requires c == Config(false, false, {}) && Reading(s, e, k)
    ensures CanRun(c, s, ReadScript(e, k, s.clock))
    ensures var t := Exec(c, s, ReadScript(e, k, s.clock)); Reading(t, e, k + 1) && t.clock == s.clock
  {
    RequestThenStart(c, s, e, k);
  }

  function ThreeReads(e: Entity, now: int): seq<Action> {
    ReadScript(e, 0, now) + ReadScript(e, 1, now) + ReadScript(e, 2, now)
  }

  lemma ThreeReadsRun(e: Entity, now: int)
    ensures var c := Config(false, false, {});
            CanRun(c, Init(now), ThreeReads(e, now)) && Reading(Exec(c, Init(now), ThreeReads(e, now)), e, 3)
  {
    var c, s := Config(false, false, {}), Init(now);
    OneMoreRead(c, s, e, 0);
    var s1 := Exec(c, s, ReadScript(e, 0, now));
    OneMoreRead(c, s1, e, 1);
    var s2 := Exec(c, s1, ReadScript(e, 1, now));
    OneMoreRead(c, s2, e, 2);
    Concat(c, s, ReadScript(e, 0, now), ReadScript(e, 1, now));
    Concat(c, s, ReadScript(e, 0, now) + ReadScript(e, 1, now), ReadScript(e, 2, now));
  }

  function ThreeGoOn(): seq<Action> { FinishScript(2) + (FinishScript(0) + GuardScript(1)) }

  /** The newest lands first, then the oldest; the one between is about to. */
  predicate BetweenIsLast(s: State, t: State, e: Entity) {
    && t == s.(runs := t.runs, projection := t.projection, newest := map[e := 3])
    && t.runs.Keys == {1} && At(t, 1, ParentChecked) && t.runs[1].job.entity == e && t.runs[1].n == 2
    && e in t.projection && t.projection[e].n == 1
  }

  lemma OldestThenGuards(c: Config, s: State, e: Entity)
    requires c == Config(false, false, {}) && |s.raw| == 3 && s.runs.Keys == {0, 1} && s.newest == map[e := 3]
    requires forall b :: 0 <= b < 2 ==>
              s.runs[b] == Run(Job(e, 0, b, s.clock), false, HistoryRead, b + 1, s.clock, false)
    ensures CanRun(c, s, FinishScript(0) + GuardScript(1))
    ensures BetweenIsLast(s, Exec(c, s, FinishScript(0) + GuardScript(1)), e)
  {
    var d := FinishRuns(c, s, 0);
    var s1 := Exec(c, s, FinishScript(0));
    assert s1.newest == map[e := 3];
    GuardRuns(c, s1, 1);
    Concat(c, s, FinishScript(0), GuardScript(1));
  }

  lemma NewestFirst(c: Config, s: State, e: Entity)
    requires c == Config(false, false, {}) && |s.raw| == 3 && s.runs.Keys == {0, 1, 2} && s.newest == map[]
    requires s.runs[2] == Run(Job(e, 0, 2, s.clock), false, HistoryRead, 3, s.clock, false)
    ensures CanRun(c, s, FinishScript(2))
    ensures var t := Exec(c, s, FinishScript(2));
            t == s.(projection := t.projection, newest := map[e := 3], runs := s.runs - {2})
  {
    var d := FinishRuns(c, s, 2);
  }

  lemma ThreeGoOnRun(c: Config, s: State, e: Entity)
    requires c == Config(false, false, {}) && Reading(s, e, 3)
    ensures CanRun(c, s, ThreeGoOn()) && BetweenIsLast(s, Exec(c, s, ThreeGoOn()), e)
  {
    assert s.runs.Keys == {0, 1, 2};
    NewestFirst(c, s, e);
    var s1 := Exec(c, s, FinishScript(2));
    assert s1.runs.Keys == {0, 1};
    OldestThenGuards(c, s1, e);
    Concat(c, s, FinishScript(2), FinishScript(0) + GuardScript(1));
  }

  lemma StillTooOld(c: Config, s: State, t: State, e: Entity)
    requires Reading(s, e, 3) && BetweenIsLast(s, t, e)
    ensures LastRun(t, 1, e) && !NotOlder(t, e, t.runs[1].n) && !Converged(Apply(c, t, Write(1)), e)
  {
    assert t.raw[2].entity == e;
    NoEventsNoRows(t.raw, e);
    SameHistoryIff(t.raw, 2, e);
  }

  /** Comparing with the row in place is not enough: the last write of this run replaces an older snapshot and
      still loses a row for good, because a newer one was replaced before. */
  lemma NewerThanTheRowInPlace(e: Entity, now: int)
    ensures var c, acts := Config(false, false, {}), ThreeReads(e, now) + ThreeGoOn();
            && CanRun(c, Init(now), acts)
            && var s := Exec(c, Init(now), acts);
            && At(s, 1, ParentChecked) && LastRun(s, 1, e) && e in s.projection && s.projection[e].n < s.runs[1].n
            && !NotOlder(s, e, s.runs[1].n) && !Converged(Apply(c, s, Write(1)), e)
  {
    var c := Config(false, false, {});
    ThreeReadsRun(e, now);
    var s := Exec(c, Init(now), ThreeReads(e, now));
    ThreeGoOnRun(c, s, e);
    Concat(c, Init(now), ThreeReads(e, now), ThreeGoOn());
    StillTooOld(c, s, Exec(c, s, ThreeGoOn()), e);
  }
}
