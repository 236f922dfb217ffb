/** What every step of the ingestion protocol keeps: each raw row is covered by an accepted snapshot
    or somebody still owes its rebuild, and watermarks and seen keys never promise more than that. */
module IngestionInvariant {
  import opened Wrappers
  import opened RawEvents
  import opened Ingestion

  /** Row `i` is in some snapshot that was accepted, be it replaced by now. */
  predicate Covered(s: State, i: nat)
    requires i < |s.raw|
  {
    i < Longest(s, s.raw[i].entity)
  }

  predicate OwnRow(row: Stored, h: Handle) { row.entity == h.entity && row.origin == Batch(h.batch) }

  ghost predicate HasJob(s: State, h: Handle) {
    || (exists q :: q in s.queue && HandleOf(q.job) == h)
    || (exists w :: w in s.runs && HandleOf(s.runs[w].job) == h && !s.runs[w].HasWritten())
  }

  ghost predicate Owed(s: State, i: nat)
    requires i < |s.raw|
  {
    match s.raw[i].origin
    case Batch(b) => Handle(s.raw[i].entity, b) in s.appends || HasJob(s, Handle(s.raw[i].entity, b))
    case Deletion => exists x :: x in s.erases && x.entity == s.raw[i].entity && i < x.n
  }

  ghost predicate AllOwed(s: State) {
    forall i :: 0 <= i < |s.raw| ==> Covered(s, i) || Owed(s, i)
  }

  ghost predicate RowsOk(s: State) {
    && (forall h :: h in s.appends ==> h in s.started)
    && (forall h :: h in s.appends && s.appends[h].Stamped? ==>
          forall k :: 0 <= k < |s.appends[h].rows| ==> !s.appends[h].rows[k].tombstone)
    && (forall i :: 0 <= i < |s.raw| ==>
          && s.raw[i].visibleAt <= s.clock
          && (s.raw[i].origin.Batch? ==>
                !s.raw[i].event.tombstone && Handle(s.raw[i].entity, s.raw[i].origin.id) in s.started))
  }

  ghost predicate JobOk(s: State, j: Job) {
    && HandleOf(j) in s.started && HandleOf(j) !in s.appends
    && j.timestamp <= s.clock
    && (forall i :: 0 <= i < |s.raw| && OwnRow(s.raw[i], HandleOf(j)) ==> s.raw[i].visibleAt <= j.timestamp)
  }

  ghost predicate JobsOk(s: State) {
    && (forall q :: q in s.queue ==> JobOk(s, q.job))
    && (forall w :: w in s.runs ==> JobOk(s, s.runs[w].job))
  }

  ghost predicate RunOk(c: Config, s: State, r: Run) {
    r.HasRead() ==>
      && r.n <= |s.raw| && r.readAt <= s.clock
      && (forall i :: 0 <= i < |s.raw| && s.raw[i].visibleAt < r.readAt ==> i < r.n)
      && (forall i :: 0 <= i < |s.raw| && OwnRow(s.raw[i], HandleOf(r.job)) ==> i < r.n)
      && (c.coalesce ==> Covers(s.raw, r) < r.readAt)
      && (r.HasWritten() ==> forall i :: 0 <= i < r.n && s.raw[i].entity == r.job.entity ==> Covered(s, i))
  }

  ghost predicate RunsOk(c: Config, s: State) {
    forall w :: w in s.runs ==> RunOk(c, s, s.runs[w])
  }

  ghost predicate SizesOk(s: State) {
    && s.newest.Keys == s.projection.Keys
    && (forall e :: e in s.projection ==> s.projection[e].n <= s.newest[e] <= |s.raw|)
    && (forall x :: x in s.erases ==> x.n <= |s.raw|)
  }

  /** A watermark W means: every row visible by W is in an accepted snapshot. */
  ghost predicate WatermarksOk(s: State) {
    forall k :: k in s.watermark ==>
      && s.watermark[k] < s.clock
      && forall i :: 0 <= i < |s.raw| && s.raw[i].entity == k.entity && s.raw[i].visibleAt <= s.watermark[k]
                     ==> Covered(s, i)
  }

  /** A seen key means: every row of that batch for that entity is in an accepted snapshot. */
  ghost predicate SeenKeysOk(s: State) {
    forall k :: k in s.seen ==>
      && Handle(k.entity, k.batch) in s.started && Handle(k.entity, k.batch) !in s.appends
      && forall i :: 0 <= i < |s.raw| && OwnRow(s.raw[i], Handle(k.entity, k.batch)) ==> Covered(s, i)
  }

  ghost predicate Inv(c: Config, s: State) {
    RowsOk(s) && JobsOk(s) && RunsOk(c, s) && SizesOk(s) && WatermarksOk(s) && SeenKeysOk(s) && AllOwed(s)
  }

  /* ---------- histories ---------- */

  lemma {:induction false} EventsOfAppend(a: seq<Stored>, b: seq<Stored>, e: Entity)
    ensures EventsOf(a + b, e) == EventsOf(a, e) + EventsOf(b, e)
  {
    if b == [] {
      assert a + b == a;
    } else {
      var b' := b[..|b| - 1];
      assert (a + b)[..|a + b| - 1] == a + b';
      EventsOfAppend(a, b', e);
    }
  }

  lemma {:induction false} EventsOfRows(raw: seq<Stored>, e: Entity)
    ensures forall v :: v in EventsOf(raw, e) <==> exists i :: 0 <= i < |raw| && raw[i].entity == e && raw[i].event == v
  {
    if raw != [] {
      var front := raw[..|raw| - 1];
      EventsOfRows(front, e);
      forall v | v in EventsOf(raw, e) ensures exists i :: 0 <= i < |raw| && raw[i].entity == e && raw[i].event == v {
        if v in EventsOf(front, e) {
          var i :| 0 <= i < |front| && front[i].entity == e && front[i].event == v;
          assert raw[i].entity == e && raw[i].event == v;
        } else {
          assert raw[|raw| - 1].event == v;
        }
      }
      forall i | 0 <= i < |raw| && raw[i].entity == e ensures raw[i].event in EventsOf(raw, e) {
        if i < |raw| - 1 { assert front[i].entity == e && front[i].event == raw[i].event; }
      }
    }
  }

  lemma {:induction false} NoRowsNoEvents(raw: seq<Stored>, e: Entity)
    requires forall i :: 0 <= i < |raw| ==> raw[i].entity != e
    ensures EventsOf(raw, e) == []
  {
    if raw != [] { NoRowsNoEvents(raw[..|raw| - 1], e); }
  }

  /** Rows that a snapshot of `n` rows already holds are all there is to read. */
  lemma PrefixIsWhole(raw: seq<Stored>, n: nat, e: Entity)
    requires n <= |raw|
    requires forall i :: n <= i < |raw| ==> raw[i].entity != e
    ensures History(raw[..n], e) == History(raw, e)
  {
    NoRowsNoEvents(raw[n..], e);
    EventsOfAppend(raw[..n], raw[n..], e);
    assert raw == raw[..n] + raw[n..];
    assert EventsOf(raw, e) == EventsOf(raw[..n], e);
  }

  lemma HistoryRows(raw: seq<Stored>, e: Entity)
    ensures forall v :: v in History(raw, e) <==> exists i :: 0 <= i < |raw| && raw[i].entity == e && raw[i].event == v
  {
    EventsOfRows(raw, e);
    ReadOrderSorts(EventsOf(raw, e));
    assert forall v :: v in History(raw, e) <==> v in multiset(History(raw, e));
    assert forall v :: v in EventsOf(raw, e) <==> v in multiset(EventsOf(raw, e));
  }

  /** A history read: the events of exactly the entity's rows, in read order. */
  lemma HistoryMeaning(raw: seq<Stored>, e: Entity)
    ensures multiset(History(raw, e)) == multiset(EventsOf(raw, e))
    ensures var h := History(raw, e);
            forall i, j :: 0 <= i < j < |h| ==>
              h[i].ingestedAt < h[j].ingestedAt || (h[i].ingestedAt == h[j].ingestedAt && h[i].eventId <= h[j].eventId)
    ensures forall v :: v in History(raw, e) <==> exists i :: 0 <= i < |raw| && raw[i].entity == e && raw[i].event == v
  {
    ReadOrderSorts(EventsOf(raw, e));
    HistoryRows(raw, e);
  }

  lemma LiveRowSeen(raw: seq<Stored>, i: nat)
    requires i < |raw| && !raw[i].event.tombstone
    ensures LiveEvents(History(raw, raw[i].entity)) != []
  {
    HistoryRows(raw, raw[i].entity);
    LiveRows(History(raw, raw[i].entity));
    assert raw[i].event in History(raw, raw[i].entity);
  }

  /* ---------- the API and the queue ---------- */

  lemma HasJobKept(s: State, t: State, h: Handle)
    requires HasJob(s, h)
    requires s.queue <= t.queue
    requires forall w :: w in s.runs ==> w in t.runs && t.runs[w].job == s.runs[w].job
                                         && (t.runs[w].HasWritten() ==> s.runs[w].HasWritten())
    ensures HasJob(t, h)
  {
    if q :| q in s.queue && HandleOf(q.job) == h {
      assert q in t.queue;
    } else {
      var w :| w in s.runs && HandleOf(s.runs[w].job) == h && !s.runs[w].HasWritten();
      assert w in t.runs;
    }
  }

  ghost predicate CoverageGrows(s: State, t: State) {
    |s.raw| <= |t.raw| && forall i :: 0 <= i < |s.raw| && Covered(s, i) ==> Covered(t, i)
  }

  /** Rows, jobs and promises survive a step that keeps the rows, grows coverage and promises no more. */
  lemma PromisesKept(c: Config, s: State, t: State)
    requires Inv(c, s)
    requires t.raw == s.raw && t.clock == s.clock && t.appends == s.appends && t.started == s.started
    requires CoverageGrows(s, t)
    requires t.watermark.Keys <= s.watermark.Keys && forall k :: k in t.watermark ==> t.watermark[k] == s.watermark[k]
    requires t.seen <= s.seen
    requires forall q :: q in t.queue ==> JobOk(s, q.job)
    requires forall w :: w in t.runs ==> JobOk(s, t.runs[w].job)
    ensures RowsOk(t) && JobsOk(t) && WatermarksOk(t) && SeenKeysOk(t)
  {
    assert forall i :: 0 <= i < |s.raw| && Covered(s, i) ==> Covered(t, i);
    forall k | k in t.watermark
      ensures t.watermark[k] < t.clock
      ensures forall i :: 0 <= i < |t.raw| && t.raw[i].entity == k.entity && t.raw[i].visibleAt <= t.watermark[k]
                          ==> Covered(t, i)
    { assert k in s.watermark; }
    forall k | k in t.seen
      ensures Handle(k.entity, k.batch) in t.started && Handle(k.entity, k.batch) !in t.appends
      ensures forall i :: 0 <= i < |t.raw| && OwnRow(t.raw[i], Handle(k.entity, k.batch)) ==> Covered(t, i)
    { assert k in s.seen; }
  }

  lemma RunStays(c: Config, s: State, t: State, r: Run)
    requires RunOk(c, s, r) && t.raw == s.raw && t.clock == s.clock && CoverageGrows(s, t)
    ensures RunOk(c, t, r)
  {}

  /** Only queues and runs changed. */
  predicate OnlyWork(s: State, t: State) { t == s.(queue := t.queue, runs := t.runs) }

  lemma PromisesWithoutWork(s: State, t: State)
    requires OnlyWork(s, t) && RowsOk(s) && SizesOk(s) && WatermarksOk(s) && SeenKeysOk(s)
    ensures RowsOk(t) && SizesOk(t) && WatermarksOk(t) && SeenKeysOk(t)
  {
    assert forall i :: 0 <= i < |s.raw| && Covered(s, i) ==> Covered(t, i);
  }

  /** Same rows, snapshots, runs and promises, no earlier clock. */
  predicate Later(s: State, t: State) {
    && t.raw == s.raw && t.newest == s.newest && t.projection == s.projection && t.runs == s.runs
    && t.erases == s.erases
    && t.watermark == s.watermark && t.seen == s.seen && s.clock <= t.clock && s.started <= t.started
  }

  lemma LaterRuns(c: Config, s: State, t: State)
    requires RunsOk(c, s) && SizesOk(s) && Later(s, t)
    ensures RunsOk(c, t) && SizesOk(t)
  {
    forall w | w in t.runs ensures RunOk(c, t, t.runs[w]) {
      assert RunOk(c, s, s.runs[w]);
      assert forall i :: 0 <= i < |s.raw| && Covered(s, i) ==> Covered(t, i);
    }
  }

  lemma LaterPromises(s: State, t: State)
    requires WatermarksOk(s) && SeenKeysOk(s) && Later(s, t)
    requires forall h :: h in t.appends ==> h in s.appends || h !in s.started
    ensures WatermarksOk(t) && SeenKeysOk(t)
  {
    assert forall i :: 0 <= i < |s.raw| && Covered(s, i) ==> Covered(t, i);
  }

  lemma TickKeeps(c: Config, s: State, ms: nat)
    requires Inv(c, s)
    ensures Inv(c, Apply(c, s, Tick(ms)))
  {
    var t := Apply(c, s, Tick(ms));
    LaterRuns(c, s, t);
    LaterPromises(s, t);
    OwedByOthers(s, t);
  }

  /** Nothing is lost by a step that only adds appends, jobs and erases, and leaves rows and snapshots alone. */
  lemma OwedByOthers(s: State, t: State)
    requires AllOwed(s)
    requires t.raw == s.raw && t.newest == s.newest && s.erases <= t.erases && s.queue <= t.queue
    requires forall h :: h in s.appends ==> h in t.appends
    requires forall w :: w in s.runs ==> w in t.runs && t.runs[w].job == s.runs[w].job
                                         && (t.runs[w].HasWritten() ==> s.runs[w].HasWritten())
    ensures AllOwed(t)
  {
    forall i | 0 <= i < |t.raw| ensures Covered(t, i) || Owed(t, i) {
      assert Covered(s, i) || Owed(s, i);
      if !Covered(s, i) && s.raw[i].origin.Batch? {
        var h := Handle(s.raw[i].entity, s.raw[i].origin.id);
        if HasJob(s, h) { HasJobKept(s, t, h); }
      }
    }
  }

  lemma StampKeeps(c: Config, s: State, h: Handle, typ: nat, bodies: seq<(nat, nat)>)
    requires Inv(c, s) && Enabled(c, s, StampEvents(h, typ, bodies))
    ensures Inv(c, Apply(c, s, StampEvents(h, typ, bodies)))
  {
    var t := Apply(c, s, StampEvents(h, typ, bodies));
    LaterRuns(c, s, t);
    LaterPromises(s, t);
    OwedByOthers(s, t);
  }

  /** `t` is `s` with `more` rows appended, visible now, each owed by its request or its erase. */
  ghost predicate Appended(s: State, t: State, more: seq<Stored>) {
    && t.raw == s.raw + more
    && t.clock == s.clock && t.queue == s.queue && t.runs == s.runs && t.seen == s.seen && t.started == s.started
    && t.watermark == s.watermark && t.projection == s.projection && t.newest == s.newest && s.erases <= t.erases
    && t.appends.Keys == s.appends.Keys
    && (forall h :: h in t.appends && t.appends[h].Stamped? ==> t.appends[h] == s.appends[h])
    && (forall x :: x in t.erases ==> x.n <= |t.raw|)
    && forall k :: 0 <= k < |more| ==>
         && more[k].visibleAt == s.clock
         && (more[k].origin.Batch? ==>
               !more[k].event.tombstone && Handle(more[k].entity, more[k].origin.id) in s.appends)
         && (more[k].origin.Deletion? ==>
               exists x :: x in t.erases && x.entity == more[k].entity && x.n == |t.raw|)
  }

  lemma AppendedRow(s: State, t: State, more: seq<Stored>, i: nat)
    requires Appended(s, t, more) && i < |t.raw|
    ensures i < |s.raw| ==> t.raw[i] == s.raw[i]
    ensures i >= |s.raw| ==> t.raw[i] == more[i - |s.raw|] && t.raw[i].visibleAt == s.clock
  {
  }

  lemma AppendRows(s: State, t: State, more: seq<Stored>)
    requires RowsOk(s) && SizesOk(s) && JobsOk(s) && Appended(s, t, more)
    ensures RowsOk(t) && SizesOk(t) && JobsOk(t)
  {
    forall i | 0 <= i < |t.raw|
      ensures i < |s.raw| ==> t.raw[i] == s.raw[i]
      ensures i >= |s.raw| ==> t.raw[i] == more[i - |s.raw|] && t.raw[i].visibleAt == s.clock
    { AppendedRow(s, t, more, i); }
  }

  lemma AppendRuns(c: Config, s: State, t: State, more: seq<Stored>)
    requires RunsOk(c, s) && JobsOk(s) && RowsOk(s) && Appended(s, t, more)
    ensures RunsOk(c, t)
  {
    forall i | 0 <= i < |t.raw|
      ensures i < |s.raw| ==> t.raw[i] == s.raw[i]
      ensures i >= |s.raw| ==> t.raw[i] == more[i - |s.raw|] && t.raw[i].visibleAt == s.clock
    { AppendedRow(s, t, more, i); }
    forall w | w in t.runs ensures RunOk(c, t, t.runs[w]) {
      var r := t.runs[w];
      assert RunOk(c, s, r) && JobOk(s, r.job);
      if r.HasRead() { assert t.raw[..r.n] == s.raw[..r.n]; }
    }
  }

  lemma AppendPromises(s: State, t: State, more: seq<Stored>)
    requires WatermarksOk(s) && SeenKeysOk(s) && RowsOk(s) && Appended(s, t, more)
    ensures WatermarksOk(t) && SeenKeysOk(t)
  {
    forall k, i | k in t.watermark && 0 <= i < |t.raw| && t.raw[i].entity == k.entity
                  && t.raw[i].visibleAt <= t.watermark[k]
      ensures Covered(t, i)
    {
      AppendedRow(s, t, more, i);
      assert Covered(s, i);
    }
    forall k, i | k in t.seen && 0 <= i < |t.raw| && OwnRow(t.raw[i], Handle(k.entity, k.batch))
      ensures Covered(t, i)
    {
      AppendedRow(s, t, more, i);
      assert Covered(s, i);
    }
  }

  lemma AppendOwes(s: State, t: State, more: seq<Stored>)
    requires AllOwed(s) && Appended(s, t, more)
    ensures AllOwed(t)
  {
    forall i | 0 <= i < |t.raw| ensures Covered(t, i) || Owed(t, i) {
      AppendedRow(s, t, more, i);
      if i < |s.raw| {
        assert Covered(s, i) || Owed(s, i);
        if !Covered(s, i) && s.raw[i].origin.Batch? {
          var h := Handle(s.raw[i].entity, s.raw[i].origin.id);
          if HasJob(s, h) { HasJobKept(s, t, h); }
        }
      }
    }
  }

  /** Rows appended at the end are visible now, which is after every watermark and every read. */
  lemma AppendRowsKeeps(c: Config, s: State, t: State, more: seq<Stored>)
    requires Inv(c, s) && Appended(s, t, more)
    ensures Inv(c, t)
  {
    AppendRows(s, t, more);
    AppendRuns(c, s, t, more);
    AppendPromises(s, t, more);
    AppendOwes(s, t, more);
  }

  lemma WriteRawKeeps(c: Config, s: State, h: Handle, acked: bool)
    requires Inv(c, s) && Enabled(c, s, WriteRaw(h, acked))
    ensures Inv(c, Apply(c, s, WriteRaw(h, acked)))
  {
    AppendRowsKeeps(c, s, Apply(c, s, WriteRaw(h, acked)), StoreRows(h, s.appends[h].rows, s.clock));
  }

  lemma TombstoneKeeps(c: Config, s: State, e: Entity)
    requires Inv(c, s)
    ensures Inv(c, Apply(c, s, WriteTombstone(e)))
  {
    var t := Apply(c, s, WriteTombstone(e));
    assert Erase(e, |s.raw| + 1) in t.erases;
    AppendRowsKeeps(c, s, t, [t.raw[|s.raw|]]);
  }

  lemma EnqueueOwes(c: Config, s: State, h: Handle)
    requires AllOwed(s) && Enabled(c, s, Enqueue(h))
    ensures AllOwed(Apply(c, s, Enqueue(h)))
  {
    var t := Apply(c, s, Enqueue(h));
    var q := Queued(Job(h.entity, s.appends[h].typ, h.batch, s.clock), false);
    assert q in t.queue && HandleOf(q.job) == h;
    forall i | 0 <= i < |t.raw| ensures Covered(t, i) || Owed(t, i) {
      assert Covered(s, i) || Owed(s, i);
      if !Covered(s, i) && s.raw[i].origin.Batch? {
        var g := Handle(s.raw[i].entity, s.raw[i].origin.id);
        if HasJob(s, g) { HasJobKept(s, t, g); } else { assert g == h || g in t.appends; }
      }
    }
  }

  lemma EnqueueKeeps(c: Config, s: State, h: Handle)
    requires Inv(c, s) && Enabled(c, s, Enqueue(h))
    ensures Inv(c, Apply(c, s, Enqueue(h)))
  {
    LaterRuns(c, s, Apply(c, s, Enqueue(h)));
    LaterPromises(s, Apply(c, s, Enqueue(h)));
    EnqueueOwes(c, s, h);
  }

  /** A job whose rows are visible may be put into a queue at any time. */
  lemma QueueGrows(c: Config, s: State, q: Queued)
    requires Inv(c, s) && JobOk(s, q.job)
    ensures Inv(c, s.(queue := s.queue + multiset{q}))
  {
    var t := s.(queue := s.queue + multiset{q});
    PromisesWithoutWork(s, t);
    OwedByOthers(s, t);
    assert JobsOk(t) by {
      forall p | p in t.queue ensures JobOk(t, p.job) { assert p == q || p in s.queue; }
      forall v | v in t.runs ensures JobOk(t, t.runs[v].job) { assert JobOk(s, s.runs[v].job); }
    }
  }

  lemma RedeliverKeeps(c: Config, s: State, q: Queued)
    requires Inv(c, s) && Enabled(c, s, Redeliver(q))
    ensures Inv(c, Apply(c, s, Redeliver(q)))
  {
    assert JobOk(s, q.job);
    QueueGrows(c, s, q);
  }

  /** Fewer or lower watermarks promise less. */
  lemma LowerWatermarksHold(s: State, lower: map<WatermarkKey, int>)
    requires WatermarksOk(s) && forall k :: k in lower ==> k in s.watermark && lower[k] <= s.watermark[k]
    ensures WatermarksOk(s.(watermark := lower))
  {
    var t := s.(watermark := lower);
    forall k | k in t.watermark
      ensures t.watermark[k] < t.clock
      ensures forall i :: 0 <= i < |t.raw| && t.raw[i].entity == k.entity && t.raw[i].visibleAt <= t.watermark[k]
                          ==> Covered(t, i)
    {
      assert k in s.watermark;
      assert forall i :: 0 <= i < |s.raw| && Covered(s, i) ==> Covered(t, i);
    }
  }

  lemma ExpireWatermarkKeeps(c: Config, s: State, k: WatermarkKey)
    requires Inv(c, s)
    ensures Inv(c, Apply(c, s, ExpireWatermark(k)))
  {
    LowerWatermarksHold(s, s.watermark - {k});
    NewWatermarks(c, s, s.watermark - {k});
  }

  lemma ExpireSeenKeeps(c: Config, s: State, k: SeenKey)
    requires Inv(c, s)
    ensures Inv(c, Apply(c, s, ExpireSeen(k)))
  {
    var t := Apply(c, s, ExpireSeen(k));
    PromisesKept(c, s, t);
    OwedByOthers(s, t);
    forall w | w in t.runs ensures RunOk(c, t, t.runs[w]) { RunStays(c, s, t, s.runs[w]); }
  }

  /* ---------- snapshots ---------- */

  /** Rows stay covered or owed when a snapshot of `n` rows is stored for `e`, if whoever stops
      owing rows of `e` thereby is covered by it. */
  lemma StoreOwes(s: State, t: State, e: Entity, n: nat)
    requires AllOwed(s) && CoverageGrows(s, t) && n <= Longest(t, e)
    requires t.raw == s.raw && t.appends == s.appends && t.queue == s.queue
    requires forall x :: x in s.erases && x !in t.erases ==> x.entity == e && x.n <= n
    requires forall w :: w in s.runs ==>
               || (w in t.runs && t.runs[w] == s.runs[w])
               || (s.runs[w].job.entity == e
                   && forall i :: 0 <= i < |s.raw| && OwnRow(s.raw[i], HandleOf(s.runs[w].job)) ==> i < n)
    ensures AllOwed(t)
  {
    forall i | 0 <= i < |t.raw| ensures Covered(t, i) || Owed(t, i) {
      assert Covered(s, i) || Owed(s, i);
      if !Covered(s, i) && s.raw[i].origin.Batch? {
        var h := Handle(s.raw[i].entity, s.raw[i].origin.id);
        if h !in s.appends {
          if q :| q in s.queue && HandleOf(q.job) == h {
            assert q in t.queue;
          } else {
            var w :| w in s.runs && HandleOf(s.runs[w].job) == h && !s.runs[w].HasWritten();
            if w in t.runs && t.runs[w] == s.runs[w] { assert HasJob(t, h); }
            else { assert OwnRow(s.raw[i], h); }
          }
        }
      }
    }
  }

  lemma WriteRuns(c: Config, s: State, w: nat)
    requires RunsOk(c, s) && Enabled(c, s, Write(w))
    ensures CoverageGrows(s, Apply(c, s, Write(w))) && RunsOk(c, Apply(c, s, Write(w)))
  {
    var r, t := s.runs[w], Apply(c, s, Write(w));
    forall v | v in t.runs ensures RunOk(c, t, t.runs[v]) {
      assert RunOk(c, s, s.runs[v]);
      RunStays(c, s, t, s.runs[v]);
      assert v == w ==> t.runs[v] == r.(phase := Accepted);
    }
  }

  lemma WriteKeeps(c: Config, s: State, w: nat)
    requires Inv(c, s) && Enabled(c, s, Write(w))
    ensures Inv(c, Apply(c, s, Write(w)))
  {
    var r, t := s.runs[w], Apply(c, s, Write(w));
    WriteRuns(c, s, w);
    WriteOwes(c, s, w);
    PromisesKept(c, s, t) by {
      forall v | v in t.runs ensures JobOk(s, t.runs[v].job) {
        assert v in s.runs && t.runs[v].job == s.runs[v].job;
      }
    }
    assert SizesOk(t) by { assert RunOk(c, s, r); }
  }

  lemma WriteOwes(c: Config, s: State, w: nat)
    requires Inv(c, s) && Enabled(c, s, Write(w))
    ensures AllOwed(Apply(c, s, Write(w)))
  {
    var r, t := s.runs[w], Apply(c, s, Write(w));
    WriteRuns(c, s, w);
    assert RunOk(c, s, r);
    forall v | v in s.runs && v != w ensures v in t.runs && t.runs[v] == s.runs[v] {}
    StoreOwes(s, t, r.job.entity, r.n);
  }

  lemma EraseKeeps(c: Config, s: State, x: Erase)
    requires Inv(c, s) && Enabled(c, s, EraseRows(x))
    ensures Inv(c, Apply(c, s, EraseRows(x)))
  {
    var t := Apply(c, s, EraseRows(x));
    assert CoverageGrows(s, t);
    forall v | v in t.runs ensures RunOk(c, t, t.runs[v]) { RunStays(c, s, t, s.runs[v]); }
    PromisesKept(c, s, t);
    StoreOwes(s, t, x.entity, x.n);
  }

  lemma ProjectTombstoneKeeps(c: Config, s: State, p: nat)
    requires Inv(c, s)
    ensures Inv(c, Apply(c, s, WriteProjectTombstone(p)))
  {
    var t := Apply(c, s, WriteProjectTombstone(p));
    PromisesKept(c, s, t);
    OwedByOthers(s, t);
    forall v | v in t.runs ensures RunOk(c, t, t.runs[v]) { RunStays(c, s, t, s.runs[v]); }
  }

  lemma EraseProjectKeeps(c: Config, s: State, p: nat)
    requires Inv(c, s) && p in s.projectTombstones
    ensures Inv(c, Apply(c, s, EraseProject(p)))
  {
    var t := Apply(c, s, EraseProject(p));
    assert t.projection.Keys == s.projection.Keys;
    assert CoverageGrows(s, t);
    forall v | v in t.runs ensures RunOk(c, t, t.runs[v]) { RunStays(c, s, t, s.runs[v]); }
    PromisesKept(c, s, t);
    forall i | 0 <= i < |t.raw| ensures Covered(t, i) || Owed(t, i) {
      assert Covered(s, i) || Owed(s, i);
      if !Covered(s, i) && s.raw[i].origin.Batch? {
        var h := Handle(s.raw[i].entity, s.raw[i].origin.id);
        if HasJob(s, h) { HasJobKept(s, t, h); }
      }
    }
  }

  /* ---------- the processor ---------- */

  lemma TakeKeeps(c: Config, s: State, w: nat, q: Queued)
    requires Inv(c, s) && Enabled(c, s, Take(w, q))
    ensures Inv(c, Apply(c, s, Take(w, q)))
  {
    var t := Apply(c, s, Take(w, q));
    assert CoverageGrows(s, t);
    forall q0 | q0 in t.queue ensures JobOk(s, q0.job) { assert q0 in s.queue; }
    forall v | v in t.runs ensures JobOk(s, t.runs[v].job) && RunOk(c, t, t.runs[v]) {
      if v != w { assert JobOk(s, s.runs[v].job); RunStays(c, s, t, s.runs[v]); }
      else { assert JobOk(s, q.job); }
    }
    PromisesKept(c, s, t);
    TakeOwes(c, s, w, q);
  }

  lemma TakeOwes(c: Config, s: State, w: nat, q: Queued)
    requires AllOwed(s) && Enabled(c, s, Take(w, q))
    ensures AllOwed(Apply(c, s, Take(w, q)))
  {
    var t := Apply(c, s, Take(w, q));
    forall i | 0 <= i < |t.raw| ensures Covered(t, i) || Owed(t, i) {
      assert Covered(s, i) || Owed(s, i);
      if !Covered(s, i) && s.raw[i].origin.Batch? {
        var h := Handle(s.raw[i].entity, s.raw[i].origin.id);
        if h !in s.appends {
          if q0 :| q0 in s.queue && HandleOf(q0.job) == h {
            if q0 == q { assert t.runs[w].job == q.job; } else { assert q0 in t.queue; }
          } else {
            var v :| v in s.runs && HandleOf(s.runs[v].job) == h && !s.runs[v].HasWritten();
            assert t.runs[v] == s.runs[v];
          }
        }
      }
    }
  }

  lemma DropOwes(s: State, w: nat)
    requires AllOwed(s) && w in s.runs
    requires var h := HandleOf(s.runs[w].job);
             || (forall i :: 0 <= i < |s.raw| && OwnRow(s.raw[i], h) ==> Covered(s, i))
             || (exists q :: q in s.queue && HandleOf(q.job) == h)
    ensures AllOwed(Drop(s, w))
  {
    var t := Drop(s, w);
    forall i | 0 <= i < |t.raw| ensures Covered(t, i) || Owed(t, i) {
      assert Covered(s, i) || Owed(s, i);
      if !Covered(s, i) && s.raw[i].origin.Batch? {
        var g := Handle(s.raw[i].entity, s.raw[i].origin.id);
        if g !in s.appends && !(exists q :: q in s.queue && HandleOf(q.job) == g) {
          var v :| v in s.runs && HandleOf(s.runs[v].job) == g && !s.runs[v].HasWritten();
          assert OwnRow(s.raw[i], g);
          assert v in t.runs;
        }
      }
    }
  }

  /** A run may be dropped once its own rows are covered, or its job is back in a queue. */
  lemma DropKeeps(c: Config, s: State, w: nat)
    requires Inv(c, s) && w in s.runs
    requires var h := HandleOf(s.runs[w].job);
             || (forall i :: 0 <= i < |s.raw| && OwnRow(s.raw[i], h) ==> Covered(s, i))
             || (exists q :: q in s.queue && HandleOf(q.job) == h)
    ensures Inv(c, Drop(s, w))
  {
    var t := Drop(s, w);
    PromisesWithoutWork(s, t);
    DropOwes(s, w);
    assert RunsOk(c, t) by {
      forall v | v in t.runs ensures RunOk(c, t, t.runs[v]) { RunStays(c, s, t, s.runs[v]); }
    }
  }

  lemma AdvanceRuns(c: Config, s: State, w: nat, r: Run)
    requires RunsOk(c, s) && JobsOk(s) && w in s.runs && r.job == s.runs[w].job && RunOk(c, s, r)
    ensures RunsOk(c, Advance(s, w, r)) && JobsOk(Advance(s, w, r))
  {
    var t := Advance(s, w, r);
    forall v | v in t.runs ensures RunOk(c, t, t.runs[v]) {
      assert v != w ==> RunOk(c, s, s.runs[v]);
      RunStays(c, s, t, t.runs[v]);
    }
  }

  /** Moving a run to a later phase, before it writes or after it has. */
  lemma AdvanceKeeps(c: Config, s: State, w: nat, r: Run)
    requires Inv(c, s) && w in s.runs
    requires r.job == s.runs[w].job && (r.HasWritten() ==> s.runs[w].HasWritten()) && RunOk(c, s, r)
    ensures Inv(c, Advance(s, w, r))
  {
    var t := Advance(s, w, r);
    PromisesWithoutWork(s, t);
    AdvanceRuns(c, s, w, r);
    OwedByOthers(s, t);
  }

  lemma CheckKeeps(c: Config, s: State, w: nat)
    requires Inv(c, s)
    ensures Enabled(c, s, CheckSeen(w)) ==> Inv(c, Apply(c, s, CheckSeen(w)))
    ensures Enabled(c, s, CheckWatermark(w)) ==> Inv(c, Apply(c, s, CheckWatermark(w)))
  {
    if w in s.runs {
      var r := s.runs[w];
      assert JobOk(s, r.job);
      if r.phase == Taken {
        if SkippedBySeen(c, s, r.job) { DropKeeps(c, s, w); } else { AdvanceKeeps(c, s, w, r.(phase := Unseen)); }
      }
      if r.phase == Unseen {
        if SkippedByWatermark(c, s, r.job) {
          forall i | 0 <= i < |s.raw| && OwnRow(s.raw[i], HandleOf(r.job)) ensures Covered(s, i) {
            assert s.raw[i].visibleAt <= s.watermark[KeyOf(r.job)];
          }
          DropKeeps(c, s, w);
        } else { AdvanceKeeps(c, s, w, r.(phase := Uncovered)); }
      }
    }
  }

  lemma RequeueKeeps(c: Config, s: State, w: nat, secondary: bool)
    requires Inv(c, s) && w in s.runs
    ensures Inv(c, Drop(s.(queue := s.queue + multiset{Queued(s.runs[w].job, secondary)}), w))
  {
    var q := Queued(s.runs[w].job, secondary);
    assert JobOk(s, q.job);
    QueueGrows(c, s, q);
    var t := s.(queue := s.queue + multiset{q});
    assert q in t.queue;
    DropKeeps(c, t, w);
  }

  lemma ReadKeeps(c: Config, s: State, w: nat)
    requires Inv(c, s) && Enabled(c, s, ReadHistory(w)) && ClockPastStamps(c, s, ReadHistory(w))
    ensures Inv(c, Apply(c, s, ReadHistory(w)))
  {
    var r := s.runs[w];
    var e := r.job.entity;
    if LiveEvents(History(s.raw, e)) == [] {
      forall i | 0 <= i < |s.raw| ensures !OwnRow(s.raw[i], HandleOf(r.job)) {
        if OwnRow(s.raw[i], HandleOf(r.job)) { LiveRowSeen(s.raw, i); }
      }
      DropKeeps(c, s, w);
    } else {
      assert s.raw[..|s.raw|] == s.raw;
      LatestBounds(LiveEvents(History(s.raw, e)));
      AdvanceKeeps(c, s, w, r.(phase := HistoryRead, n := |s.raw|, readAt := s.clock));
    }
  }

  lemma GuardProjectKeeps(c: Config, s: State, w: nat)
    requires Inv(c, s) && Enabled(c, s, GuardProject(w))
    ensures Inv(c, Apply(c, s, GuardProject(w)))
  {
    var r := s.runs[w];
    assert RunOk(c, s, r);
    AdvanceKeeps(c, s, w, Apply(c, s, GuardProject(w)).runs[w]);
  }

  lemma GuardParentKeeps(c: Config, s: State, w: nat)
    requires Inv(c, s) && Enabled(c, s, GuardParent(w))
    ensures Inv(c, Apply(c, s, GuardParent(w)))
  {
    var r := s.runs[w];
    assert RunOk(c, s, r);
    AdvanceKeeps(c, s, w, r.(phase := ParentChecked, deleted := r.deleted || ParentDeleted(s, r.job.entity)));
  }

  lemma PublishKeeps(c: Config, s: State, w: nat, stored: bool)
    requires Inv(c, s) && Enabled(c, s, Publish(w, stored))
    ensures Inv(c, Apply(c, s, Publish(w, stored)))
  {
    var r := s.runs[w];
    assert RunOk(c, s, r);
    var t := Advance(s, w, r.(phase := Published));
    AdvanceKeeps(c, s, w, r.(phase := Published));
    if c.coalesce && stored {
      WatermarkStored(c, t, t.runs[w]);
      assert Apply(c, s, Publish(w, stored)) == t.(watermark := t.watermark[KeyOf(r.job) := Covers(t.raw, t.runs[w])]);
    }
  }

  /** The watermarks promise about rows and snapshots only; nothing else looks at them. */
  lemma NewWatermarks(c: Config, t: State, watermark: map<WatermarkKey, int>)
    requires Inv(c, t)
    ensures WatermarksOk(t.(watermark := watermark)) ==> Inv(c, t.(watermark := watermark))
  {
    var u := t.(watermark := watermark);
    assert forall i :: 0 <= i < |t.raw| && Covered(t, i) ==> Covered(u, i);
    OwedByOthers(t, u);
    forall v | v in u.runs ensures RunOk(c, u, u.runs[v]) { RunStays(c, t, u, t.runs[v]); }
  }

  lemma WatermarkStored(c: Config, t: State, r: Run)
    requires Inv(c, t) && c.coalesce && RunOk(c, t, r) && r.HasWritten()
    ensures Inv(c, t.(watermark := t.watermark[KeyOf(r.job) := Covers(t.raw, r)]))
  {
    var watermark := t.watermark[KeyOf(r.job) := Covers(t.raw, r)];
    NewWatermarks(c, t, watermark);
    WatermarkHolds(c, t, t.(watermark := watermark), r);
  }

  /** The watermark of a run that read after every stamp it covers keeps its promise. */
  lemma WatermarkHolds(c: Config, t: State, u: State, r: Run)
    requires Inv(c, t) && c.coalesce && RunOk(c, t, r) && r.HasWritten()
    requires u == t.(watermark := t.watermark[KeyOf(r.job) := Covers(t.raw, r)])
    ensures WatermarksOk(u)
  {
    forall k | k in u.watermark
      ensures u.watermark[k] < u.clock
      ensures forall i :: 0 <= i < |u.raw| && u.raw[i].entity == k.entity && u.raw[i].visibleAt <= u.watermark[k]
                          ==> Covered(u, i)
    {
      if k != KeyOf(r.job) {
        assert k in t.watermark;
        assert forall i :: 0 <= i < |t.raw| && Covered(t, i) ==> Covered(u, i);
      }
    }
  }

  lemma SeenKeyAdded(c: Config, s: State, k: SeenKey)
    requires Inv(c, s) && Handle(k.entity, k.batch) in s.started && Handle(k.entity, k.batch) !in s.appends
    requires forall i :: 0 <= i < |s.raw| && OwnRow(s.raw[i], Handle(k.entity, k.batch)) ==> Covered(s, i)
    ensures Inv(c, s.(seen := s.seen + {k}))
  {
    var t := s.(seen := s.seen + {k});
    assert forall i :: 0 <= i < |t.raw| && Covered(s, i) ==> Covered(t, i);
    PromisesKept(c, s, t.(seen := s.seen));
    OwedByOthers(s, t);
    forall v | v in t.runs ensures RunOk(c, t, t.runs[v]) { RunStays(c, s, t, s.runs[v]); }
    assert SeenKeysOk(t) by {
      forall q, i | q in t.seen && 0 <= i < |t.raw| && OwnRow(t.raw[i], Handle(q.entity, q.batch))
        ensures Covered(t, i)
      { assert Covered(s, i); }
    }
  }

  lemma MarkSeenKeeps(c: Config, s: State, w: nat, stored: bool)
    requires Inv(c, s) && Enabled(c, s, MarkSeen(w, stored))
    ensures Inv(c, Apply(c, s, MarkSeen(w, stored)))
  {
    var r := s.runs[w];
    assert RunOk(c, s, r) && JobOk(s, r.job);
    if c.seenCache && stored {
      SeenKeyAdded(c, s, SeenOf(r.job));
      DropKeeps(c, s.(seen := s.seen + {SeenOf(r.job)}), w);
    } else {
      DropKeeps(c, s, w);
    }
  }

  /* ---------- every step, every run ---------- */

  lemma InitHolds(c: Config, now: int)
    ensures Inv(c, Init(now))
  {}

  /** Steps of a worker. */
  predicate ByWorker(a: Action) {
    a.Take? || a.CheckSeen? || a.Redirect? || a.CheckWatermark? || a.ReadHistory? || a.GuardProject? || a.GuardParent?
    || a.Write? || a.Publish? || a.MarkSeen? || a.Fail?
  }

  function WorkerOf(a: Action): nat
    requires ByWorker(a)
  {
    a.w
  }

  lemma OutsideSteps(c: Config, s: State, a: Action)
    requires Enabled(c, s, a) && !ByWorker(a)
    ensures Apply(c, s, a).runs == s.runs
  {
  }

  lemma OthersKeepRunEarly(c: Config, s: State, a: Action, w: nat)
    requires Enabled(c, s, a) && BeforeRead(a) && WorkerOf(a) != w
    ensures var t := Apply(c, s, a); w in t.runs ==> w in s.runs && t.runs[w] == s.runs[w]
  {
  }

  lemma OthersKeepRun(c: Config, s: State, a: Action, w: nat)
    requires Enabled(c, s, a) && ByWorker(a) && WorkerOf(a) != w
    ensures var t := Apply(c, s, a); w in t.runs ==> w in s.runs && t.runs[w] == s.runs[w]
  {
    if BeforeRead(a) { OthersKeepRunEarly(c, s, a, w); }
  }

  /** A worker's own step keeps its job, and a run that has written stays so. */
  lemma OwnRunKeepsJob(c: Config, s: State, a: Action)
    requires Enabled(c, s, a) && ByWorker(a) && !a.Take?
    ensures var t, w := Apply(c, s, a), WorkerOf(a);
            w in s.runs && (w in t.runs ==>
                t.runs[w].job == s.runs[w].job && (s.runs[w].HasWritten() ==> t.runs[w].HasWritten()))
  {
  }

  /** Steps before a worker has read the history. */
  predicate BeforeRead(a: Action) { a.Take? || a.CheckSeen? || a.Redirect? || a.CheckWatermark? || a.Fail? }

  lemma EarlyStepsKeep(c: Config, s: State, a: Action)
    requires Enabled(c, s, a) && BeforeRead(a)
    ensures var t := Apply(c, s, a);
            && t.raw == s.raw && t.appends == s.appends && t.erases == s.erases
            && t.projection == s.projection && t.newest == s.newest
  {
  }

  lemma GuardStepsKeep(c: Config, s: State, a: Action)
    requires Enabled(c, s, a) && (a.ReadHistory? || a.GuardProject? || a.GuardParent?)
    ensures var t := Apply(c, s, a);
            && t.raw == s.raw && t.appends == s.appends && t.erases == s.erases
            && (!a.Write? ==> t.projection == s.projection && t.newest == s.newest)
  {
    match a
    case ReadHistory(_) =>
    case GuardProject(_) =>
    case GuardParent(_) =>
  }

  lemma LateStepsKeep(c: Config, s: State, a: Action)
    requires Enabled(c, s, a) && (a.Write? || a.Publish? || a.MarkSeen?)
    ensures var t := Apply(c, s, a);
            && t.raw == s.raw && t.appends == s.appends && t.erases == s.erases
            && (!a.Write? ==> t.projection == s.projection && t.newest == s.newest)
  {
  }

  /** A worker writes snapshots, keys and jobs, and nothing else. */
  lemma WorkersKeepRows(c: Config, s: State, a: Action)
    requires Enabled(c, s, a) && ByWorker(a)
    ensures var t := Apply(c, s, a);
            && t.raw == s.raw && t.appends == s.appends && t.erases == s.erases
            && (!a.Write? ==> t.projection == s.projection && t.newest == s.newest)
  {
    if BeforeRead(a) { EarlyStepsKeep(c, s, a); }
    else if a.Write? || a.Publish? || a.MarkSeen? { LateStepsKeep(c, s, a); }
    else { GuardStepsKeep(c, s, a); }
  }

  lemma OthersKeepSnapshots(c: Config, s: State, a: Action)
    requires Enabled(c, s, a)
    ensures !ByWorker(a) && !a.EraseRows? && !a.EraseProject? ==>
              Apply(c, s, a).projection == s.projection && Apply(c, s, a).newest == s.newest
  {
  }

  lemma WorkerStepKeeps(c: Config, s: State, a: Action)
    requires Inv(c, s) && Enabled(c, s, a) && ClockPastStamps(c, s, a) && ByWorker(a)
    ensures Inv(c, Apply(c, s, a))
  {
    match a
    case Take(w, q) => TakeKeeps(c, s, w, q);
    case CheckSeen(w) => CheckKeeps(c, s, w);
    case Redirect(w) => RequeueKeeps(c, s, w, true);
    case CheckWatermark(w) => CheckKeeps(c, s, w);
    case ReadHistory(w) => ReadKeeps(c, s, w);
    case GuardProject(w) => GuardProjectKeeps(c, s, w);
    case GuardParent(w) => GuardParentKeeps(c, s, w);
    case Write(w) => WriteKeeps(c, s, w);
    case Publish(w, stored) => PublishKeeps(c, s, w, stored);
    case MarkSeen(w, stored) => MarkSeenKeeps(c, s, w, stored);
    case Fail(w) => RequeueKeeps(c, s, w, s.runs[w].secondary);
  }

  lemma StepKeeps(c: Config, s: State, a: Action)
    requires Inv(c, s) && Enabled(c, s, a) && ClockPastStamps(c, s, a)
    ensures Inv(c, Apply(c, s, a))
  {
    match a
    case Tick(ms) => TickKeeps(c, s, ms);
    case StampEvents(h, typ, bodies) => StampKeeps(c, s, h, typ, bodies);
    case WriteRaw(h, acked) => WriteRawKeeps(c, s, h, acked);
    case Enqueue(h) => EnqueueKeeps(c, s, h);
    case WriteTombstone(e) => TombstoneKeeps(c, s, e);
    case EraseRows(x) => EraseKeeps(c, s, x);
    case WriteProjectTombstone(p) => ProjectTombstoneKeeps(c, s, p);
    case EraseProject(p) => EraseProjectKeeps(c, s, p);
    case Redeliver(q) => RedeliverKeeps(c, s, q);
    case ExpireWatermark(k) => ExpireWatermarkKeeps(c, s, k);
    case ExpireSeen(k) => ExpireSeenKeeps(c, s, k);
    case _ => WorkerStepKeeps(c, s, a);
  }

  lemma {:induction false} RunKeeps(c: Config, s: State, acts: seq<Action>)
    requires Inv(c, s) && CanRun(c, s, acts) && Clocked(c, s, acts)
    ensures Inv(c, Exec(c, s, acts))
    decreases |acts|
  {
    if acts != [] {
      StepKeeps(c, s, acts[0]);
      RunKeeps(c, Apply(c, s, acts[0]), acts[1..]);
    }
  }
}
