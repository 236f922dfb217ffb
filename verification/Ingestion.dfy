/** The ingestion protocol as a step system (worker/src/queues/ingestionQueue.ts and its producers).

    API requests stamp events, append them to `raw_events` and enqueue a job; workers rebuild an
    entity's projection from its whole history, and skip the rebuild when a watermark or a per-batch
    seen key says that an earlier rebuild already covered the job. Every `await` of the source is the
    boundary of one step, so steps of different requests and workers interleave freely. */
module Ingestion {
  import opened Wrappers
  import opened RawEvents

  datatype Kind = Trace | Observation | Score

  /** `traceId` is the trace named by the events of a child; every event of a child names the same one. */
  datatype Entity = Entity(project: nat, kind: Kind, id: nat, traceId: Option<nat>)

  datatype Origin = Batch(id: nat) | Deletion

  /** A row of `raw_events`. `origin` and `visibleAt` are not columns: no step reads them, the proofs do. */
  datatype Stored = Stored(entity: Entity, event: RawEvent, origin: Origin, visibleAt: int)

  datatype Job = Job(entity: Entity, typ: nat, batch: nat, timestamp: int)
  datatype Queued = Queued(job: Job, secondary: bool)

  /** One entity of one API request, between stamping and enqueueing. */
  datatype Handle = Handle(entity: Entity, batch: nat)
  datatype Append = Stamped(typ: nat, rows: seq<RawEvent>) | Written(typ: nat)

  datatype WatermarkKey = WatermarkKey(entity: Entity, typ: nat)
  datatype SeenKey = SeenKey(entity: Entity, typ: nat, batch: nat)

  /** A projection row: the rebuild of the first `n` raw rows. A physically erased row is written as a
      deleted one; queries show neither. */
  datatype Snapshot = Snapshot(n: nat, deleted: bool)

  /** An entity deletion whose tombstone is written and whose projection rows are not erased yet. */
  datatype Erase = Erase(entity: Entity, n: nat)

  /** How far one processor invocation has come. */
  datatype Phase = Taken | Unseen | Uncovered | HistoryRead | ProjectChecked | ParentChecked | Accepted | Published

  datatype Run = Run(job: Job, secondary: bool, phase: Phase, n: nat, readAt: int, deleted: bool) {
    predicate HasRead() { phase !in {Taken, Unseen, Uncovered} }
    predicate HasWritten() { phase in {Accepted, Published} }
  }

  datatype Config = Config(coalesce: bool, seenCache: bool, redirected: set<nat>)

  /** `newest` is the length of the longest snapshot ever stored for an entity. It is a record for the proofs:
      no step depends on it. */
  datatype State = State(
    clock: int,
    raw: seq<Stored>,
    appends: map<Handle, Append>,
    started: set<Handle>,
    queue: multiset<Queued>,
    watermark: map<WatermarkKey, int>,
    seen: set<SeenKey>,
    projectTombstones: set<nat>,
    projection: map<Entity, Snapshot>,
    erases: set<Erase>,
    runs: map<nat, Run>,
    newest: map<Entity, nat>)

  function Init(now: int): State {
    State(now, [], map[], {}, multiset{}, map[], {}, {}, map[], {}, map[], map[])
  }

  datatype Action =
    | Tick(ms: nat)
    | StampEvents(h: Handle, typ: nat, bodies: seq<(nat, nat)>)
    | WriteRaw(h: Handle, acked: bool)
    | Enqueue(h: Handle)
    | WriteTombstone(e: Entity)
    | EraseRows(x: Erase)
    | WriteProjectTombstone(project: nat)
    | EraseProject(project: nat)
    | Redeliver(q: Queued)
    | ExpireWatermark(wk: WatermarkKey)
    | ExpireSeen(sk: SeenKey)
    | Take(w: nat, q: Queued)
    | CheckSeen(w: nat)
    | Redirect(w: nat)
    | CheckWatermark(w: nat)
    | ReadHistory(w: nat)
    | GuardProject(w: nat)
    | GuardParent(w: nat)
    | Write(w: nat)
    | Publish(w: nat, stored: bool)
    | MarkSeen(w: nat, stored: bool)
    | Fail(w: nat)

  /* ---------- reading the raw history ---------- */

  function EventsOf(raw: seq<Stored>, e: Entity): seq<RawEvent> {
    if raw == [] then []
    else
      var front, row := EventsOf(raw[..|raw| - 1], e), raw[|raw| - 1];
      if row.entity == e then front + [row.event] else front
  }

  function History(raw: seq<Stored>, e: Entity): seq<RawEvent> { ReadOrder(EventsOf(raw, e)) }

  /** `maxIngestedAtMs` of the history a run has read. */
  function Covers(raw: seq<Stored>, r: Run): int
    requires r.n <= |raw|
  {
    Parse(History(raw[..r.n], r.job.entity), 0).maxIngestedAt
  }

  function ParentTrace(e: Entity): Option<Entity> {
    if e.kind.Trace? || e.traceId.None? then None
    else Some(Entity(e.project, Trace, e.traceId.value, None))
  }

  predicate ParentDeleted(s: State, e: Entity) {
    ParentTrace(e).Some? && Deleted(History(s.raw, ParentTrace(e).value))
  }

  function StampRows(bodies: seq<(nat, nat)>, now: int): seq<RawEvent> {
    seq(|bodies|, i requires 0 <= i < |bodies| => RawEvent(now + i, bodies[i].0, false, bodies[i].1))
  }

  function StoreRows(h: Handle, rows: seq<RawEvent>, now: int): seq<Stored> {
    seq(|rows|, i requires 0 <= i < |rows| => Stored(h.entity, rows[i], Batch(h.batch), now))
  }

  function KeyOf(j: Job): WatermarkKey { WatermarkKey(j.entity, j.typ) }
  function SeenOf(j: Job): SeenKey { SeenKey(j.entity, j.typ, j.batch) }
  function HandleOf(j: Job): Handle { Handle(j.entity, j.batch) }

  predicate Redirects(c: Config, r: Run) { !r.secondary && r.job.entity.project in c.redirected }

  /** Line 134 of the processor: the watermark is set and at or past the job timestamp. */
  predicate SkippedByWatermark(c: Config, s: State, j: Job) {
    c.coalesce && KeyOf(j) in s.watermark && s.watermark[KeyOf(j)] >= j.timestamp
  }

  predicate SkippedBySeen(c: Config, s: State, j: Job) { c.seenCache && SeenOf(j) in s.seen }

  /* ---------- steps ---------- */

  predicate At(s: State, w: nat, p: Phase) { w in s.runs && s.runs[w].phase == p }

  predicate Enabled(c: Config, s: State, a: Action) {
    match a
    case Tick(_) => true
    case StampEvents(h, _, bodies) => h !in s.started && bodies != []
    case WriteRaw(h, _) => h in s.appends && s.appends[h].Stamped?
    case Enqueue(h) => h in s.appends && s.appends[h].Written?
    case WriteTombstone(_) => true
    case EraseRows(x) => x in s.erases
    case WriteProjectTombstone(_) => true
    case EraseProject(p) => p in s.projectTombstones
    case Redeliver(q) =>
      || q in s.queue
      || exists w :: w in s.runs && s.runs[w].job == q.job && s.runs[w].secondary == q.secondary
    case ExpireWatermark(_) => true
    case ExpireSeen(_) => true
    case Take(w, q) => w !in s.runs && q in s.queue
    case CheckSeen(w) => At(s, w, Taken)
    case Redirect(w) => At(s, w, Unseen) && Redirects(c, s.runs[w])
    case CheckWatermark(w) => At(s, w, Unseen) && !Redirects(c, s.runs[w])
    case ReadHistory(w) => At(s, w, Uncovered)
    case GuardProject(w) => At(s, w, HistoryRead)
    case GuardParent(w) => At(s, w, ProjectChecked)
    case Write(w) => At(s, w, ParentChecked)
    case Publish(w, _) => At(s, w, Accepted)
    case MarkSeen(w, _) => At(s, w, Published)
    case Fail(w) => w in s.runs
  }

  function Longer(newest: map<Entity, nat>, e: Entity, n: nat): map<Entity, nat> {
    newest[e := if e in newest && newest[e] > n then newest[e] else n]
  }

  /** The writer replaces the projection row, whatever it held. */
  function Store(s: State, e: Entity, x: Snapshot): State {
    s.(projection := s.projection[e := x], newest := Longer(s.newest, e, x.n))
  }

  function Longest(s: State, e: Entity): nat { if e in s.newest then s.newest[e] else 0 }

  function Drop(s: State, w: nat): State { s.(runs := s.runs - {w}) }

  function Advance(s: State, w: nat, r: Run): State { s.(runs := s.runs[w := r]) }

  function Apply(c: Config, s: State, a: Action): State
    requires Enabled(c, s, a)
  {
    match a
    case Tick(ms) => s.(clock := s.clock + ms)
    case StampEvents(h, typ, bodies) =>
      s.(appends := s.appends[h := Stamped(typ, StampRows(bodies, s.clock))], started := s.started + {h})
    case WriteRaw(h, acked) =>
      var stamped := s.appends[h];
      s.(raw := s.raw + StoreRows(h, stamped.rows, s.clock),
         appends := if acked then s.appends[h := Written(stamped.typ)] else s.appends)
    case Enqueue(h) =>
      s.(queue := s.queue + multiset{Queued(Job(h.entity, s.appends[h].typ, h.batch, s.clock), false)},
         appends := s.appends - {h})
    case WriteTombstone(e) =>
      var row := Stored(e, RawEvent(s.clock, e.id, true, 0), Deletion, s.clock);
      s.(raw := s.raw + [row], erases := s.erases + {Erase(e, |s.raw| + 1)})
    case EraseRows(x) =>
      Store(s, x.entity, Snapshot(x.n, true)).(erases := s.erases - {x})
    case WriteProjectTombstone(p) => s.(projectTombstones := s.projectTombstones + {p})
    case EraseProject(p) =>
      s.(projection := map e | e in s.projection ::
           if e.project == p then Snapshot(s.projection[e].n, true) else s.projection[e])
    case Redeliver(q) => s.(queue := s.queue + multiset{q})
    case ExpireWatermark(k) => s.(watermark := s.watermark - {k})
    case ExpireSeen(k) => s.(seen := s.seen - {k})
    case Take(w, q) =>
      s.(queue := s.queue - multiset{q}, runs := s.runs[w := Run(q.job, q.secondary, Taken, 0, 0, false)])
    case CheckSeen(w) =>
      var r := s.runs[w];
      if SkippedBySeen(c, s, r.job) then Drop(s, w) else Advance(s, w, r.(phase := Unseen))
    case Redirect(w) =>
      Drop(s.(queue := s.queue + multiset{Queued(s.runs[w].job, true)}), w)
    case CheckWatermark(w) =>
      var r := s.runs[w];
      if SkippedByWatermark(c, s, r.job) then Drop(s, w) else Advance(s, w, r.(phase := Uncovered))
    case ReadHistory(w) =>
      var r := s.runs[w];
      if LiveEvents(History(s.raw, r.job.entity)) == [] then Drop(s, w)
      else Advance(s, w, r.(phase := HistoryRead, n := |s.raw|, readAt := s.clock))
    case GuardProject(w) =>
      var r := s.runs[w];
      var own := r.n <= |s.raw| && Deleted(History(s.raw[..r.n], r.job.entity));
      Advance(s, w, r.(phase := ProjectChecked, deleted := own || r.job.entity.project in s.projectTombstones))
    case GuardParent(w) =>
      var r := s.runs[w];
      Advance(s, w, r.(phase := ParentChecked, deleted := r.deleted || ParentDeleted(s, r.job.entity)))
    case Write(w) =>
      var r := s.runs[w];
      Advance(Store(s, r.job.entity, Snapshot(r.n, r.deleted)), w, r.(phase := Accepted))
    case Publish(w, stored) =>
      var r := s.runs[w];
      Advance(if c.coalesce && stored && r.n <= |s.raw|
              then s.(watermark := s.watermark[KeyOf(r.job) := Covers(s.raw, r)]) else s,
              w, r.(phase := Published))
    case MarkSeen(w, stored) =>
      Drop(if c.seenCache && stored then s.(seen := s.seen + {SeenOf(s.runs[w].job)}) else s, w)
    case Fail(w) =>
      Drop(s.(queue := s.queue + multiset{Queued(s.runs[w].job, s.runs[w].secondary)}), w)
  }

  predicate CanRun(c: Config, s: State, acts: seq<Action>)
    decreases |acts|
  {
    acts == [] || (Enabled(c, s, acts[0]) && CanRun(c, Apply(c, s, acts[0]), acts[1..]))
  }

  function Exec(c: Config, s: State, acts: seq<Action>): State
    requires CanRun(c, s, acts)
    decreases |acts|
  {
    if acts == [] then s else Exec(c, Apply(c, s, acts[0]), acts[1..])
  }

  /* ---------- the clock, and the order of writes ---------- */

  /** The clock has passed every stamp that a rebuild covers (strictly) or that a tombstone answers. */
  predicate ClockPastStamps(c: Config, s: State, a: Action)
    requires Enabled(c, s, a)
  {
    match a
    case ReadHistory(w) =>
      c.coalesce ==> ReadSafe(s, s.runs[w].job.entity)
    case WriteTombstone(e) =>
      forall i :: 0 <= i < |s.raw| && s.raw[i].entity == e ==> s.raw[i].event.ingestedAt <= s.clock
    case _ => true
  }

  predicate ReadSafe(s: State, e: Entity) {
    var live := LiveEvents(History(s.raw, e));
    live != [] ==> Latest(live).value < s.clock
  }

  /** No snapshot is stored that misses a row of its entity which an earlier one held. */
  predicate WritesInOrder(c: Config, s: State, a: Action)
    requires Enabled(c, s, a)
  {
    match a
    case Write(w) => NotOlder(s, s.runs[w].job.entity, s.runs[w].n)
    case EraseRows(x) => NotOlder(s, x.entity, x.n)
    case _ => true
  }

  predicate NotOlder(s: State, e: Entity, n: nat) {
    forall i :: n <= i < Longest(s, e) && i < |s.raw| ==> s.raw[i].entity != e
  }

  /** Every history read and every tombstone of the run comes after the stamps it covers. */
  predicate Clocked(c: Config, s: State, acts: seq<Action>)
    requires CanRun(c, s, acts)
    decreases |acts|
  {
    acts == [] || (ClockPastStamps(c, s, acts[0]) && Clocked(c, Apply(c, s, acts[0]), acts[1..]))
  }

  /** A clocked run whose writes are in order. */
  predicate Disciplined(c: Config, s: State, acts: seq<Action>)
    requires CanRun(c, s, acts)
    decreases |acts|
  {
    acts == [] ||
    (ClockPastStamps(c, s, acts[0]) && WritesInOrder(c, s, acts[0]) &&
     Disciplined(c, Apply(c, s, acts[0]), acts[1..]))
  }

  predicate Quiescent(s: State) {
    s.appends == map[] && s.queue == multiset{} && s.runs == map[] && s.erases == {}
  }

  /** The projection of `e` holds every row of `e` that any snapshot ever held. */
  predicate UpToDate(s: State, e: Entity) { e in s.projection ==> NotOlder(s, e, s.projection[e].n) }

  /** The projection of `e` is the rebuild of its full history. */
  predicate Converged(s: State, e: Entity) {
    EventsOf(s.raw, e) != [] ==>
      && e in s.projection
      && s.projection[e].n <= |s.raw|
      && History(s.raw[..s.projection[e].n], e) == History(s.raw, e)
  }
}
