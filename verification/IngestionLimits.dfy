/** Where the ingestion protocol needs its environment: exactly which rebuild reads may publish a watermark,
    exactly when a job is no older than its events, that rebuilds which do not overlap land in order, and a run in
    which a skipped job is lost. */
module IngestionLimits {
  import Collections
  import opened Wrappers
  import opened RawEvents
  import opened Ingestion
  import opened IngestionInvariant
  import opened IngestionTheorems

  /* ---------- scripts of one request and one worker ---------- */

  function RequestScript(h: Handle, typ: nat, id: nat): seq<Action> {
    [StampEvents(h, typ, [(id, 0)]), WriteRaw(h, true), Enqueue(h)]
  }

  function RequestRow(h: Handle, id: nat, now: int): Stored {
    Stored(h.entity, RawEvent(now, id, false, 0), Batch(h.batch), now)
  }

  lemma RequestRuns(c: Config, s: State, h: Handle, typ: nat, id: nat)
    requires h !in s.started && h !in s.appends
    ensures CanRun(c, s, RequestScript(h, typ, id)) && Disciplined(c, s, RequestScript(h, typ, id))
    ensures Exec(c, s, RequestScript(h, typ, id)) ==
            s.(raw := s.raw + [RequestRow(h, id, s.clock)], started := s.started + {h},
               queue := s.queue + multiset{Queued(Job(h.entity, typ, h.batch, s.clock), false)})
  {
    var s1 := Apply(c, s, StampEvents(h, typ, [(id, 0)]));
    var s2 := Apply(c, s1, WriteRaw(h, true));
    var s3 := Apply(c, s2, Enqueue(h));
    assert StampRows([(id, 0)], s.clock) == [RawEvent(s.clock, id, false, 0)];
    assert StoreRows(h, [RawEvent(s.clock, id, false, 0)], s.clock) == [RequestRow(h, id, s.clock)];
    assert s3.appends == s.appends;
    Cons(c, s2, Enqueue(h), []);
    Cons(c, s1, WriteRaw(h, true), [Enqueue(h)] + []);
    Cons(c, s, StampEvents(h, typ, [(id, 0)]), [WriteRaw(h, true)] + ([Enqueue(h)] + []));
    assert RequestScript(h, typ, id) == [StampEvents(h, typ, [(id, 0)])] + ([WriteRaw(h, true)] + ([Enqueue(h)] + []));
  }

  function GuardScript(w: nat): seq<Action> { [GuardProject(w), GuardParent(w)] }

  function WriteScript(w: nat): seq<Action> { [Write(w), Publish(w, true)] }

  /** What the guards find when nothing happens between them. */
  predicate GuardsSay(s: State, e: Entity, n: nat)
    requires n <= |s.raw|
  {
    Deleted(History(s.raw[..n], e)) || e.project in s.projectTombstones || ParentDeleted(s, e)
  }

  lemma GuardRuns(c: Config, s: State, w: nat)
    requires At(s, w, HistoryRead) && s.runs[w].n <= |s.raw|
    ensures CanRun(c, s, GuardScript(w)) && Disciplined(c, s, GuardScript(w))
    ensures Exec(c, s, GuardScript(w)) ==
            Advance(s, w,
                s.runs[w].(phase := ParentChecked, deleted := GuardsSay(s, s.runs[w].job.entity, s.runs[w].n)))
  {
    var s1 := Apply(c, s, GuardProject(w));
    Cons(c, s1, GuardParent(w), []);
    Cons(c, s, GuardProject(w), [GuardParent(w)] + []);
    assert GuardScript(w) == [GuardProject(w)] + ([GuardParent(w)] + []);
    var s2 := Apply(c, s1, GuardParent(w));
    assert s2.runs == s.runs[w := s2.runs[w]];
  }

  function AfterWrite(c: Config, s: State, w: nat): State
    requires w in s.runs && s.runs[w].n <= |s.raw|
  {
    var r := s.runs[w];
    s.(projection := s.projection[r.job.entity := Snapshot(r.n, r.deleted)],
       newest := Longer(s.newest, r.job.entity, r.n),
       watermark := if c.coalesce then s.watermark[KeyOf(r.job) := Covers(s.raw, r)] else s.watermark,
       runs := s.runs[w := r.(phase := Published)])
  }

  lemma WriteScriptRuns(c: Config, s: State, w: nat)
    requires At(s, w, ParentChecked) && s.runs[w].n <= |s.raw|
    ensures CanRun(c, s, WriteScript(w)) && Exec(c, s, WriteScript(w)) == AfterWrite(c, s, w)
    ensures NotOlder(s, s.runs[w].job.entity, s.runs[w].n) ==> Disciplined(c, s, WriteScript(w))
  {
    var s1 := Apply(c, s, Write(w));
    Cons(c, s1, Publish(w, true), []);
    Cons(c, s, Write(w), [Publish(w, true)] + []);
    assert WriteScript(w) == [Write(w)] + ([Publish(w, true)] + []);
    assert s1.runs[w := s.runs[w].(phase := Published)] == s.runs[w := s.runs[w].(phase := Published)];
  }

  function RebuildScript(w: nat): seq<Action> { GuardScript(w) + WriteScript(w) }

  lemma RebuildRuns(c: Config, s: State, w: nat) returns (d: bool)
    requires At(s, w, HistoryRead) && s.runs[w].n <= |s.raw|
    ensures CanRun(c, s, RebuildScript(w))
    ensures NotOlder(s, s.runs[w].job.entity, s.runs[w].n) ==> Disciplined(c, s, RebuildScript(w))
    ensures Exec(c, s, RebuildScript(w)) ==
            AfterWrite(c, Advance(s, w, s.runs[w].(phase := ParentChecked, deleted := d)), w)
  {
    GuardRuns(c, s, w);
    d := GuardsSay(s, s.runs[w].job.entity, s.runs[w].n);
    WriteScriptRuns(c, Exec(c, s, GuardScript(w)), w);
    Concat(c, s, GuardScript(w), WriteScript(w));
  }

  /* ---------- which reads may publish a watermark ---------- */

  function LateScript(h: Handle, typ: nat, w: nat): seq<Action> { RequestScript(h, typ, 0) + RebuildScript(w) }

  /** A request lands after run `w` has read and before it writes. */
  lemma LateRequest(c: Config, t: State, w: nat, b: nat)
    requires At(t, w, HistoryRead) && t.runs[w].n == |t.raw|
    requires Longest(t, t.runs[w].job.entity) <= |t.raw|
    requires var h := Handle(t.runs[w].job.entity, b); h !in t.started && h !in t.appends
    ensures var r := t.runs[w];
            var h := Handle(r.job.entity, b);
            var acts := LateScript(h, r.job.typ, w);
            && CanRun(c, t, acts) && Disciplined(c, t, acts)
            && var u := Exec(c, t, acts);
            && u.raw == t.raw + [RequestRow(h, 0, t.clock)]
            && Queued(Job(h.entity, r.job.typ, b, t.clock), false) in u.queue
            && u.seen == t.seen && u.runs.Keys == t.runs.Keys
            && Longest(u, h.entity) == |t.raw|
            && (c.coalesce ==> KeyOf(r.job) in u.watermark && u.watermark[KeyOf(r.job)] == Covers(u.raw, r))
  {
    var r := t.runs[w];
    var h := Handle(r.job.entity, b);
    RequestRuns(c, t, h, r.job.typ, 0);
    var t1 := Exec(c, t, RequestScript(h, r.job.typ, 0));
    assert NotOlder(t1, r.job.entity, r.n);
    var d := RebuildRuns(c, t1, w);
    Concat(c, t, RequestScript(h, r.job.typ, 0), RebuildScript(w));
  }

  /** If the history read holds a stamp at or past the clock, a request of the same millisecond is
      skipped although nobody has read its row. */
  lemma UnsafeReadLoses(c: Config, s: State, w: nat, b: nat, w2: nat) returns (acts: seq<Action>)
    requires Inv(c, s) && Enabled(c, s, ReadHistory(w)) && c.coalesce
    requires LiveEvents(History(s.raw, s.runs[w].job.entity)) != [] && !ReadSafe(s, s.runs[w].job.entity)
    requires Handle(s.runs[w].job.entity, b) !in s.started && w2 !in s.runs
    ensures var t := Apply(c, s, ReadHistory(w));
            CanRun(c, t, acts) && Disciplined(c, t, acts) && AboutToLose(c, Exec(c, t, acts))
  {
    var t, job := Apply(c, s, ReadHistory(w)), s.runs[w].job;
    var h := Handle(job.entity, b);
    var j2 := Job(job.entity, job.typ, b, t.clock);
    assert h !in s.appends;
    assert SeenOf(j2) !in s.seen;
    LateRequest(c, t, w, b);
    var u := Exec(c, t, LateScript(h, job.typ, w));
    ReachCheckRuns(c, u, j2, w2);
    Concat(c, t, LateScript(h, job.typ, w), ReachCheck(c, j2, w2));
    acts := LateScript(h, job.typ, w) + ReachCheck(c, j2, w2);
    CoversAhead(s, u.raw, t.runs[w]);
    LosesRow(c, Exec(c, u, ReachCheck(c, j2, w2)), w2, |s.raw|);
  }

  lemma CoversAhead(s: State, raw: seq<Stored>, r: Run)
    requires !ReadSafe(s, r.job.entity) && r.n == |s.raw| && s.raw <= raw
    ensures Covers(raw, r) >= s.clock
  {
    assert raw[..|s.raw|] == s.raw;
    LatestBounds(LiveEvents(History(s.raw, r.job.entity)));
  }

  lemma LosesRow(c: Config, s: State, w: nat, i: nat)
    requires At(s, w, Unseen) && !Redirects(c, s.runs[w]) && SkippedByWatermark(c, s, s.runs[w].job)
    requires i < |s.raw| && OwnRow(s.raw[i], HandleOf(s.runs[w].job)) && !Covered(s, i)
    ensures AboutToLose(c, s)
  {
    assert w in s.runs;
  }

  ghost predicate NeverLoses(c: Config, t: State) {
    forall acts :: CanRun(c, t, acts) && Clocked(c, t, acts) ==> !AboutToLose(c, Exec(c, t, acts))
  }

  /** A rebuild read is safe to publish exactly when the clock has passed every stamp it covers: only then does no
      clocked continuation, in whatever order it writes, skip a job with a row that no accepted snapshot held. */
  lemma ReadSafeIff(c: Config, s: State, w: nat)
    requires Inv(c, s) && Enabled(c, s, ReadHistory(w)) && c.coalesce
    requires LiveEvents(History(s.raw, s.runs[w].job.entity)) != []
    ensures ReadSafe(s, s.runs[w].job.entity) <==> NeverLoses(c, Apply(c, s, ReadHistory(w)))
  {
    var t := Apply(c, s, ReadHistory(w));
    if ReadSafe(s, s.runs[w].job.entity) {
      StepKeeps(c, s, ReadHistory(w));
      forall acts | CanRun(c, t, acts) && Clocked(c, t, acts) ensures !AboutToLose(c, Exec(c, t, acts)) {
        RunKeeps(c, t, acts);
        NothingToLose(c, Exec(c, t, acts));
      }
    } else {
      var used := set h | h in s.started :: h.batch;
      assert forall h :: h in s.started ==> h.batch in used;
      var b := Collections.FreshNat(used);
      var w2 := Collections.FreshNat(s.runs.Keys);
      var acts := UnsafeReadLoses(c, s, w, b, w2);
      DisciplinedIsClocked(c, t, acts);
    }
  }

  /** A request of two events stamps the second one ahead of the clock, so the claim in the source that a
      job's timestamp is no older than its events is false. */
  lemma JobStampedBeforeItsEvents(c: Config, e: Entity, now: int)
    ensures var h := Handle(e, 0);
            var acts := [StampEvents(h, 0, [(0, 0), (1, 0)]), WriteRaw(h, true), Enqueue(h)];
            && CanRun(c, Init(now), acts)
            && var s := Exec(c, Init(now), acts);
            && Queued(Job(e, 0, 0, now), false) in s.queue
            && |s.raw| == 2 && s.raw[1].entity == e && s.raw[1].event.ingestedAt == now + 1
  {
    var h := Handle(e, 0);
    var s := Init(now);
    var s1 := Apply(c, s, StampEvents(h, 0, [(0, 0), (1, 0)]));
    var s2 := Apply(c, s1, WriteRaw(h, true));
    Cons(c, s2, Enqueue(h), []);
    Cons(c, s1, WriteRaw(h, true), [Enqueue(h)] + []);
    Cons(c, s, StampEvents(h, 0, [(0, 0), (1, 0)]), [WriteRaw(h, true)] + ([Enqueue(h)] + []));
    assert [StampEvents(h, 0, [(0, 0), (1, 0)]), WriteRaw(h, true), Enqueue(h)]
        == [StampEvents(h, 0, [(0, 0), (1, 0)])] + ([WriteRaw(h, true)] + ([Enqueue(h)] + []));
  }

  /** Stamping and, some time later, writing. */
  lemma StampAndWrite(c: Config, s: State, h: Handle, typ: nat, bodies: seq<(nat, nat)>, ms: nat)
    requires h !in s.started && h !in s.appends && bodies != []
    ensures var acts := [StampEvents(h, typ, bodies), Tick(ms), WriteRaw(h, true)];
            && CanRun(c, s, acts)
            && Exec(c, s, acts) ==
               s.(clock := s.clock + ms, appends := s.appends[h := Written(typ)], started := s.started + {h},
                  raw := s.raw + StoreRows(h, StampRows(bodies, s.clock), s.clock + ms))
  {
    var s1 := Apply(c, s, StampEvents(h, typ, bodies));
    var s2 := Apply(c, s1, Tick(ms));
    Cons(c, s2, WriteRaw(h, true), []);
    Cons(c, s1, Tick(ms), [WriteRaw(h, true)] + []);
    Cons(c, s, StampEvents(h, typ, bodies), [Tick(ms)] + ([WriteRaw(h, true)] + []));
    assert [StampEvents(h, typ, bodies), Tick(ms), WriteRaw(h, true)]
        == [StampEvents(h, typ, bodies)] + ([Tick(ms)] + ([WriteRaw(h, true)] + []));
    assert s1.appends[h := Written(typ)] == s.appends[h := Written(typ)];
  }

  lemma WaitAndEnqueue(c: Config, s: State, h: Handle, ms: nat)
    requires h in s.appends && s.appends[h].Written?
    ensures var acts := [Tick(ms), Enqueue(h)];
            && CanRun(c, s, acts) && Exec(c, s, acts).raw == s.raw
            && Exec(c, s, acts).queue ==
               s.queue + multiset{Queued(Job(h.entity, s.appends[h].typ, h.batch, s.clock + ms), false)}
  {
    var s1 := Apply(c, s, Tick(ms));
    Cons(c, s1, Enqueue(h), []);
    Cons(c, s, Tick(ms), [Enqueue(h)] + []);
    assert [Tick(ms), Enqueue(h)] == [Tick(ms)] + ([Enqueue(h)] + []);
  }

  /** The job of a request is no older than the request's events exactly when at least one millisecond per
      event after the first passes between stamping and enqueueing. */
  lemma JobTimestampIff(c: Config, s: State, h: Handle, typ: nat, bodies: seq<(nat, nat)>, before: nat, after: nat)
    requires h !in s.started && h !in s.appends && bodies != []
    ensures var acts := [StampEvents(h, typ, bodies), Tick(before), WriteRaw(h, true)] + [Tick(after), Enqueue(h)];
            && CanRun(c, s, acts)
            && var t, job := Exec(c, s, acts), Job(h.entity, typ, h.batch, s.clock + before + after);
            && t.queue == s.queue + multiset{Queued(job, false)} && |t.raw| == |s.raw| + |bodies|
            && ((forall i :: |s.raw| <= i < |t.raw| ==> t.raw[i].event.ingestedAt <= job.timestamp)
                <==> before + after >= |bodies| - 1)
  {
    var write := [StampEvents(h, typ, bodies), Tick(before), WriteRaw(h, true)];
    StampAndWrite(c, s, h, typ, bodies, before);
    WaitAndEnqueue(c, Exec(c, s, write), h, after);
    Concat(c, s, write, [Tick(after), Enqueue(h)]);
    var rows := StoreRows(h, StampRows(bodies, s.clock), s.clock + before);
    var raw := s.raw + rows;
    forall i | |s.raw| <= i < |raw| ensures raw[i].event.ingestedAt == s.clock + (i - |s.raw|) {
      assert raw[i] == rows[i - |s.raw|];
    }
    assert raw[|raw| - 1].event.ingestedAt == s.clock + |bodies| - 1;
  }

  /* ---------- writes in order ---------- */

  /** No rebuild of `e` is between its read and its write, and no erase of `e` is pending. */
  ghost predicate Idle(s: State, e: Entity) {
    && (forall w :: w in s.runs && s.runs[w].HasRead() && !s.runs[w].HasWritten() ==> s.runs[w].job.entity != e)
    && (forall x :: x in s.erases ==> x.entity != e)
  }

  /** Rebuilds and erases of one entity do not overlap. */
  ghost predicate SerialStep(c: Config, s: State, a: Action)
    requires Enabled(c, s, a)
  {
    match a
    case ReadHistory(w) => Idle(s, s.runs[w].job.entity)
    case WriteTombstone(e) => Idle(s, e)
    case _ => true
  }

  ghost predicate Serial(c: Config, s: State, acts: seq<Action>)
    requires CanRun(c, s, acts)
    decreases |acts|
  {
    acts == [] ||
    (SerialStep(c, s, acts[0]) && ClockPastStamps(c, s, acts[0]) &&
     Serial(c, Apply(c, s, acts[0]), acts[1..]))
  }

  predicate Open(s: State, w: nat) { w in s.runs && s.runs[w].HasRead() && !s.runs[w].HasWritten() }

  ghost predicate SerialOk(s: State) {
    && (forall e :: e in s.newest ==> s.newest[e] <= |s.raw|)
    && (forall w :: Open(s, w) ==> s.runs[w].n <= |s.raw| && NotOlder(s, s.runs[w].job.entity, s.runs[w].n))
    && (forall x :: x in s.erases ==> x.n <= |s.raw| && NotOlder(s, x.entity, x.n))
    && (forall v, w :: Open(s, v) && Open(s, w) && s.runs[v].job.entity == s.runs[w].job.entity ==> v == w)
    && (forall x, y :: x in s.erases && y in s.erases && x.entity == y.entity ==> x == y)
    && (forall w, x :: Open(s, w) && x in s.erases ==> s.runs[w].job.entity != x.entity)
  }

  /** Steps that neither open a rebuild, nor erase, nor store a snapshot. */
  lemma SerialFrame(s: State, t: State)
    requires SerialOk(s) && s.raw <= t.raw && t.erases <= s.erases
    requires t.newest == s.newest
    requires forall v :: Open(t, v) ==> Open(s, v) && t.runs[v].n == s.runs[v].n && t.runs[v].job == s.runs[v].job
    ensures SerialOk(t)
  {}

  lemma SerialRead(c: Config, s: State, w: nat)
    requires SerialOk(s) && Enabled(c, s, ReadHistory(w)) && SerialStep(c, s, ReadHistory(w))
    ensures SerialOk(Apply(c, s, ReadHistory(w)))
  {
    if LiveEvents(History(s.raw, s.runs[w].job.entity)) == [] {
      SerialFrame(s, Drop(s, w));
    } else {
      SerialOpens(s, w, s.runs[w].(phase := HistoryRead, n := |s.raw|, readAt := s.clock));
    }
  }

  /** A rebuild that has read everything there is, while its entity is idle. */
  lemma SerialOpens(s: State, w: nat, r: Run)
    requires SerialOk(s) && Idle(s, r.job.entity) && r.n == |s.raw|
    ensures SerialOk(Advance(s, w, r))
  {
    var t := Advance(s, w, r);
    forall v | Open(t, v) && v != w ensures Open(s, v) && t.runs[v] == s.runs[v] {}
  }

  lemma SerialTombstone(c: Config, s: State, e: Entity)
    requires SerialOk(s) && SerialStep(c, s, WriteTombstone(e))
    ensures SerialOk(Apply(c, s, WriteTombstone(e)))
  {
    var t := Apply(c, s, WriteTombstone(e));
    assert forall v :: Open(t, v) ==> Open(s, v);
  }

  lemma SerialWrite(c: Config, s: State, w: nat)
    requires SerialOk(s) && Enabled(c, s, Write(w))
    ensures WritesInOrder(c, s, Write(w)) && SerialOk(Apply(c, s, Write(w)))
  {
    var t := Apply(c, s, Write(w));
    assert Open(s, w);
    assert forall v :: Open(t, v) ==> v != w && Open(s, v) && t.runs[v] == s.runs[v];
  }

  lemma SerialErase(c: Config, s: State, x: Erase)
    requires SerialOk(s) && Enabled(c, s, EraseRows(x))
    ensures WritesInOrder(c, s, EraseRows(x)) && SerialOk(Apply(c, s, EraseRows(x)))
  {
    var t := Apply(c, s, EraseRows(x));
    assert forall v :: Open(t, v) ==> Open(s, v) && t.runs[v] == s.runs[v];
  }

  lemma OwnRunStaysOpen(c: Config, s: State, a: Action, w: nat)
    requires Enabled(c, s, a) && ByWorker(a) && WorkerOf(a) == w && !a.ReadHistory? && !a.Write?
    ensures var t := Apply(c, s, a);
            Open(t, w) ==> Open(s, w) && t.runs[w].n == s.runs[w].n && t.runs[w].job == s.runs[w].job
  {
  }

  lemma SerialWorker(c: Config, s: State, a: Action, w: nat)
    requires SerialOk(s) && Enabled(c, s, a)
    requires (a.Take? && a.w == w) || (a.Publish? && a.w == w) || (a.MarkSeen? && a.w == w)
             || a in {CheckSeen(w), Redirect(w), CheckWatermark(w), GuardProject(w), GuardParent(w), Fail(w)}
    ensures SerialOk(Apply(c, s, a))
  {
    var t := Apply(c, s, a);
    WorkersKeepRows(c, s, a);
    forall v | Open(t, v) ensures Open(s, v) && t.runs[v].n == s.runs[v].n && t.runs[v].job == s.runs[v].job {
      if v != w { OthersKeepRun(c, s, a, v); } else { OwnRunStaysOpen(c, s, a, w); }
    }
    SerialFrame(s, t);
  }

  lemma SerialStepKeeps(c: Config, s: State, a: Action)
    requires SerialOk(s) && Enabled(c, s, a) && SerialStep(c, s, a)
    ensures WritesInOrder(c, s, a) && SerialOk(Apply(c, s, a))
  {
    match a
    case ReadHistory(w) => SerialRead(c, s, w);
    case WriteTombstone(e) => SerialTombstone(c, s, e);
    case Write(w) => SerialWrite(c, s, w);
    case EraseRows(x) => SerialErase(c, s, x);
    case Take(w, _) => SerialWorker(c, s, a, w);
    case CheckSeen(w) => SerialWorker(c, s, a, w);
    case Redirect(w) => SerialWorker(c, s, a, w);
    case CheckWatermark(w) => SerialWorker(c, s, a, w);
    case GuardProject(w) => SerialWorker(c, s, a, w);
    case GuardParent(w) => SerialWorker(c, s, a, w);
    case Publish(w, _) => SerialWorker(c, s, a, w);
    case MarkSeen(w, _) => SerialWorker(c, s, a, w);
    case Fail(w) => SerialWorker(c, s, a, w);
    case _ => SerialFrame(s, Apply(c, s, a));
  }

  /** Serving one rebuild per entity at a time is enough for the write order that convergence needs. */
  lemma {:induction false} SerialIsDisciplined(c: Config, s: State, acts: seq<Action>)
    requires SerialOk(s) && CanRun(c, s, acts) && Serial(c, s, acts)
    ensures Disciplined(c, s, acts)
    decreases |acts|
  {
    if acts != [] {
      SerialStepKeeps(c, s, acts[0]);
      SerialIsDisciplined(c, Apply(c, s, acts[0]), acts[1..]);
    }
  }

  /** Convergence, deletion flag included, when rebuilds and erases of one entity never overlap. */
  lemma SerialRebuildsConverge(c: Config, now: int, acts: seq<Action>, e: Entity)
    requires CanRun(c, Init(now), acts) && Serial(c, Init(now), acts) && Quiescent(Exec(c, Init(now), acts))
    ensures var s := Exec(c, Init(now), acts);
            && Converged(s, e)
            && (EventsOf(s.raw, e) != [] ==>
                  && (Deleted(History(s.raw, e)) ==> s.projection[e].deleted)
                  && (s.projection[e].deleted ==> Deleted(History(s.raw, e)) || Guarded(s, e)))
  {
    SerialIsDisciplined(c, Init(now), acts);
    Convergence(c, now, acts, e);
  }

  /* ---------- a request and a worker that has read ---------- */

  function StartScript(j: Job, w: nat): seq<Action> {
    [Take(w, Queued(j, false)), CheckSeen(w)] + [CheckWatermark(w), ReadHistory(w)]
  }

  lemma CheckAndRead(c: Config, s: State, j: Job, w: nat)
    requires c.redirected == {} && !SkippedByWatermark(c, s, j)
    requires w in s.runs && s.runs[w] == Run(j, false, Unseen, 0, 0, false)
    requires LiveEvents(History(s.raw, j.entity)) != []
    ensures var acts := [CheckWatermark(w), ReadHistory(w)];
            && CanRun(c, s, acts) && (!c.coalesce ==> Disciplined(c, s, acts))
            && Exec(c, s, acts) == s.(runs := s.runs[w := Run(j, false, HistoryRead, |s.raw|, s.clock, false)])
  {
    var s1 := Apply(c, s, CheckWatermark(w));
    Cons(c, s1, ReadHistory(w), []);
    Cons(c, s, CheckWatermark(w), [ReadHistory(w)] + []);
    assert [CheckWatermark(w), ReadHistory(w)] == [CheckWatermark(w)] + ([ReadHistory(w)] + []);
    assert s1.runs[w := Run(j, false, HistoryRead, |s.raw|, s.clock, false)]
        == s.runs[w := Run(j, false, HistoryRead, |s.raw|, s.clock, false)];
  }

  lemma StartRuns(c: Config, s: State, j: Job, w: nat)
    requires c.redirected == {} && !SkippedByWatermark(c, s, j)
    requires w !in s.runs && Queued(j, false) in s.queue && SeenOf(j) !in s.seen
    requires LiveEvents(History(s.raw, j.entity)) != []
    ensures CanRun(c, s, StartScript(j, w)) && (!c.coalesce ==> Disciplined(c, s, StartScript(j, w)))
    ensures Exec(c, s, StartScript(j, w)) ==
            s.(queue := s.queue - multiset{Queued(j, false)},
               runs := s.runs[w := Run(j, false, HistoryRead, |s.raw|, s.clock, false)])
  {
    var first, last := [Take(w, Queued(j, false)), CheckSeen(w)], [CheckWatermark(w), ReadHistory(w)];
    TakeAndCheck(c, s, Queued(j, false), w);
    var s2 := s.(queue := s.queue - multiset{Queued(j, false)},
                 runs := s.runs[w := Run(j, false, Unseen, 0, 0, false)]);
    CheckAndRead(c, s2, j, w);
    Concat(c, s, first, last);
    assert s2.runs[w := Run(j, false, HistoryRead, |s.raw|, s.clock, false)]
        == s.runs[w := Run(j, false, HistoryRead, |s.raw|, s.clock, false)];
  }

  /** Two disciplined scripts, the second starting where the first leads. */
  lemma Chain(c: Config, s: State, a: seq<Action>, mid: State, b: seq<Action>)
    requires CanRun(c, s, a) && Disciplined(c, s, a) && Exec(c, s, a) == mid
    requires CanRun(c, mid, b) && Disciplined(c, mid, b)
    ensures CanRun(c, s, a + b) && Disciplined(c, s, a + b) && Exec(c, s, a + b) == Exec(c, mid, b)
  {
    Concat(c, s, a, b);
  }

  lemma RequestThenStart(c: Config, s: State, e: Entity, b: nat)
    requires c.redirected == {} && s.watermark == map[]
    requires Handle(e, b) !in s.started && s.appends == map[] && s.queue == multiset{} && s.seen == {} && b !in s.runs
    ensures var acts := RequestScript(Handle(e, b), 0, b) + StartScript(Job(e, 0, b, s.clock), b);
            && CanRun(c, s, acts) && (!c.coalesce ==> Disciplined(c, s, acts))
            && var raw := s.raw + [RequestRow(Handle(e, b), b, s.clock)];
            && Exec(c, s, acts) == s.(raw := raw, started := s.started + {Handle(e, b)},
                                      runs := s.runs[b := Run(Job(e, 0, b, s.clock), false, HistoryRead,
                                                              |raw|, s.clock, false)])
  {
    var j := Job(e, 0, b, s.clock);
    RequestRuns(c, s, Handle(e, b), 0, b);
    var s1 := Exec(c, s, RequestScript(Handle(e, b), 0, b));
    LiveRowSeen(s1.raw, |s.raw|);
    assert s1.queue == multiset{Queued(j, false)};
    StartRuns(c, s1, j, b);
    assert s1.queue - multiset{Queued(j, false)} == multiset{};
    Concat(c, s, RequestScript(Handle(e, b), 0, b), StartScript(j, b));
  }

  /* ---------- a skipped job that is lost for good ---------- */

  function FinishScript(w: nat): seq<Action> { RebuildScript(w) + [MarkSeen(w, true)] }

  lemma FinishRuns(c: Config, s: State, w: nat) returns (d: bool)
    requires !c.seenCache
    requires At(s, w, HistoryRead) && s.runs[w].n <= |s.raw|
    ensures CanRun(c, s, FinishScript(w))
    ensures Exec(c, s, FinishScript(w)) ==
            s.(projection := s.projection[s.runs[w].job.entity := Snapshot(s.runs[w].n, d)],
               newest := Longer(s.newest, s.runs[w].job.entity, s.runs[w].n),
               watermark := if c.coalesce then s.watermark[KeyOf(s.runs[w].job) := Covers(s.raw, s.runs[w])]
                   else s.watermark,
               runs := s.runs - {w})
  {
    d := RebuildRuns(c, s, w);
    var t := Exec(c, s, RebuildScript(w));
    Cons(c, t, MarkSeen(w, true), []);
    assert [MarkSeen(w, true)] + [] == [MarkSeen(w, true)];
    Concat(c, s, RebuildScript(w), [MarkSeen(w, true)]);
    assert t.runs - {w} == s.runs - {w};
  }

  lemma TwoRowsDiffer(r0: Stored, r1: Stored)
    requires r0.entity == r1.entity
    ensures EventsOf([r0, r1], r0.entity) != [] && History([r0], r0.entity) != History([r0, r1], r0.entity)
  {
    var e := r0.entity;
    assert [r0, r1] == [r0] + [r1];
    EventsOfAppend([r0], [r1], e);
    ReadOrderSorts(EventsOf([r0], e));
    ReadOrderSorts(EventsOf([r0, r1], e));
    assert [r0][..0] == [] && [r1][..0] == [];
    assert |EventsOf([r0], e)| == 1 && |EventsOf([r0, r1], e)| == 2;
    assert |multiset(History([r0], e))| != |multiset(History([r0, r1], e))|;
  }

  function SkipScript(j: Job, w: nat): seq<Action> { [Take(w, Queued(j, false)), CheckSeen(w)] + [CheckWatermark(w)] }

  lemma SkipRuns(c: Config, s: State, j: Job, w: nat)
    requires c.redirected == {} && SkippedByWatermark(c, s, j)
    requires w !in s.runs && Queued(j, false) in s.queue && SeenOf(j) !in s.seen
    ensures CanRun(c, s, SkipScript(j, w))
              && Exec(c, s, SkipScript(j, w)) == s.(queue := s.queue - multiset{Queued(j, false)})
  {
    TakeAndCheck(c, s, Queued(j, false), w);
    var s1 := Exec(c, s, [Take(w, Queued(j, false)), CheckSeen(w)]);
    Cons(c, s1, CheckWatermark(w), []);
    assert [CheckWatermark(w)] + [] == [CheckWatermark(w)];
    Concat(c, s, [Take(w, Queued(j, false)), CheckSeen(w)], [CheckWatermark(w)]);
    assert s1.runs - {w} == s.runs;
  }

  /** A history read in the millisecond of a stamp is unsafe. */
  lemma SameMillisecond(s: State, e: Entity)
    requires s.raw != [] && forall i :: 0 <= i < |s.raw| ==>
               s.raw[i].entity == e && !s.raw[i].event.tombstone && s.raw[i].event.ingestedAt == s.clock
    ensures LiveEvents(History(s.raw, e)) != [] && !ReadSafe(s, e)
  {
    LiveRowSeen(s.raw, 0);
    var live := LiveEvents(History(s.raw, e));
    LiveRows(History(s.raw, e));
    HistoryRows(s.raw, e);
    LatestBounds(live);
    assert live[0] in History(s.raw, e);
  }

  /** The first rebuild finishes and the second job is skipped. */
  lemma SkipTail(s: State, e: Entity)
    requires s.raw == [RequestRow(Handle(e, 0), 0, s.clock), RequestRow(Handle(e, 1), 1, s.clock)]
    requires s.runs == map[0 := Run(Job(e, 0, 0, s.clock), false, HistoryRead, 1, s.clock, false)]
    requires s.queue == multiset{Queued(Job(e, 0, 1, s.clock), false)} && s.seen == {} && s.newest == map[]
    ensures var c, acts := Config(true, false, {}), FinishScript(0) + SkipScript(Job(e, 0, 1, s.clock), 1);
            && CanRun(c, s, acts)
            && var t := Exec(c, s, acts);
            && t == s.(projection := t.projection, newest := t.newest, watermark := t.watermark,
                       queue := multiset{}, runs := map[])
            && e in t.projection && t.projection[e].n == 1 && Longest(t, e) == 1
  {
    var c, j := Config(true, false, {}), Job(e, 0, 1, s.clock);
    var read := s.(raw := s.raw[..1]);
    SameMillisecond(read, e);
    CoversAhead(read, s.raw, s.runs[0]);
    var d := FinishRuns(c, s, 0);
    var s1 := Exec(c, s, FinishScript(0));
    assert s1.runs == map[];
    SkipRuns(c, s1, j, 1);
    Concat(c, s, FinishScript(0), SkipScript(j, 1));
    assert s1.queue - multiset{Queued(j, false)} == multiset{};
  }

  /** Two requests of one millisecond: a rebuild has read the first when the second is made. */
  function SkipHead(e: Entity, now: int): seq<Action> {
    RequestScript(Handle(e, 0), 0, 0) + StartScript(Job(e, 0, 0, now), 0) + RequestScript(Handle(e, 1), 0, 1)
  }

  lemma SkipHeadRuns(e: Entity, now: int)
    ensures var c, j := Config(true, false, {}), Job(e, 0, 0, now);
            && CanRun(c, Init(now), SkipHead(e, now))
            && Exec(c, Init(now), SkipHead(e, now)) ==
               Init(now).(raw := [RequestRow(Handle(e, 0), 0, now), RequestRow(Handle(e, 1), 1, now)],
                          started := {Handle(e, 0), Handle(e, 1)},
                          queue := multiset{Queued(Job(e, 0, 1, now), false)},
                          runs := map[0 := Run(j, false, HistoryRead, 1, now, false)])
  {
    var c, s := Config(true, false, {}), Init(now);
    var a0 := RequestScript(Handle(e, 0), 0, 0) + StartScript(Job(e, 0, 0, now), 0);
    RequestThenStart(c, s, e, 0);
    RequestRuns(c, Exec(c, s, a0), Handle(e, 1), 0, 1);
    Concat(c, s, a0, RequestScript(Handle(e, 1), 0, 1));
  }

  /** The unsafe read from the start, and what it costs: nothing is in flight, every write was in order, and the
      second event is in no snapshot. */
  lemma SkippedJobIsLost(e: Entity, now: int)
    ensures var c := Config(true, false, {});
            var acts := SkipHead(e, now) + (FinishScript(0) + SkipScript(Job(e, 0, 1, now), 1));
            && CanRun(c, Init(now), acts)
            && var s := Exec(c, Init(now), acts);
            && Quiescent(s) && UpToDate(s, e) && !Converged(s, e) && |s.raw| == 2 && !Covered(s, 1)
  {
    var c := Config(true, false, {});
    SkipHeadRuns(e, now);
    var s := Exec(c, Init(now), SkipHead(e, now));
    var r0, r1 := RequestRow(Handle(e, 0), 0, now), RequestRow(Handle(e, 1), 1, now);
    assert s.raw == [r0, r1] && s.raw[..1] == [r0];
    SkipTail(s, e);
    Concat(c, Init(now), SkipHead(e, now), FinishScript(0) + SkipScript(Job(e, 0, 1, now), 1));
    TwoRowsDiffer(r0, r1);
  }
}
