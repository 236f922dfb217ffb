/** Trace deletion and late children: the parent guard of a child rebuild, exactly when it keeps a child of a
    deleted trace deleted, and the run in which it does not (worker/src/queues/ingestionQueue.ts:177-187). */
module ParentDeletion {
  import opened Wrappers
  import opened RawEvents
  import opened Ingestion
  import opened IngestionInvariant
  import opened IngestionTheorems
  import opened IngestionLimits

  /** The trace that an observation or a score names. */
  function TraceOf(project: nat, id: nat): Entity { Entity(project, Trace, id, None) }

  /** Observation or score `e` names trace `id`. */
  predicate ChildOf(e: Entity, id: nat) { (e.kind.Observation? || e.kind.Score?) && e.traceId == Some(id) }

  predicate TraceDeleted(s: State, e: Entity, id: nat) { Deleted(History(s.raw, TraceOf(e.project, id))) }

  /** The trace of child `e` is deleted and no projection of `e` is live. */
  predicate ChildBuried(s: State, e: Entity, id: nat) {
    TraceDeleted(s, e, id) && (e in s.projection ==> s.projection[e].deleted)
  }

  /** Run `w` is past the parent guard and about to write a live projection of `e`. */
  predicate LiveChild(s: State, w: nat, e: Entity) {
    At(s, w, ParentChecked) && s.runs[w].job.entity == e && !s.runs[w].deleted
  }

  ghost predicate NoLiveChild(s: State, e: Entity) { forall w :: !LiveChild(s, w, e) }

  /** The trace stays deleted all along: no event re-creates it. */
  ghost predicate TraceStaysDeleted(c: Config, s: State, acts: seq<Action>, e: Entity, id: nat)
    requires CanRun(c, s, acts)
    decreases |acts|
  {
    TraceDeleted(s, e, id) && (acts == [] || TraceStaysDeleted(c, Apply(c, s, acts[0]), acts[1..], e, id))
  }

  ghost predicate ChildStaysBuried(c: Config, s: State, e: Entity, id: nat) {
    forall acts :: CanRun(c, s, acts) && TraceStaysDeleted(c, s, acts, e, id) ==> ChildBuried(Exec(c, s, acts), e, id)
  }

  lemma ChildProjection(c: Config, s: State, a: Action, e: Entity, id: nat)
    requires ChildBuried(s, e, id) && NoLiveChild(s, e) && Enabled(c, s, a)
    ensures var t := Apply(c, s, a); e in t.projection ==> t.projection[e].deleted
  {
    match a
    case Write(w) => assert !LiveChild(s, w, e);
    case EraseRows(_) =>
    case EraseProject(_) =>
    case _ => if ByWorker(a) { WorkersKeepRows(c, s, a); } else { OthersKeepSnapshots(c, s, a); }
  }

  lemma OwnChildStep(c: Config, s: State, a: Action, e: Entity, id: nat)
    requires ChildOf(e, id) && TraceDeleted(s, e, id) && Enabled(c, s, a) && ByWorker(a)
    ensures !LiveChild(Apply(c, s, a), WorkerOf(a), e)
  {
  }

  /** Only the parent guard opens a live child rebuild, and it sees the tombstone. */
  lemma ChildStep(c: Config, s: State, a: Action, w: nat, e: Entity, id: nat)
    requires ChildOf(e, id) && TraceDeleted(s, e, id) && !LiveChild(s, w, e) && Enabled(c, s, a)
    ensures !LiveChild(Apply(c, s, a), w, e)
  {
    if !ByWorker(a) {
      OutsideSteps(c, s, a);
    } else if WorkerOf(a) == w {
      OwnChildStep(c, s, a, e, id);
    } else {
      OthersKeepRun(c, s, a, w);
    }
  }

  lemma {:induction false} ChildRun(c: Config, s: State, acts: seq<Action>, e: Entity, id: nat)
    requires ChildOf(e, id) && ChildBuried(s, e, id) && NoLiveChild(s, e)
    requires CanRun(c, s, acts) && TraceStaysDeleted(c, s, acts, e, id)
    ensures ChildBuried(Exec(c, s, acts), e, id)
    decreases |acts|
  {
    if acts != [] {
      var t := Apply(c, s, acts[0]);
      ChildProjection(c, s, acts[0], e, id);
      forall w ensures !LiveChild(t, w, e) { ChildStep(c, s, acts[0], w, e, id); }
      ChildRun(c, t, acts[1..], e, id);
    }
  }

  /** An observation or score of a deleted trace without a live projection stays without one, as long as the trace
      stays deleted, exactly when no run of it is past the parent guard with a live result. */
  lemma NoOrphanIff(c: Config, s: State, e: Entity, id: nat)
    requires ChildOf(e, id) && ChildBuried(s, e, id)
    ensures NoLiveChild(s, e) <==> ChildStaysBuried(c, s, e, id)
  {
    if NoLiveChild(s, e) {
      forall acts | CanRun(c, s, acts) && TraceStaysDeleted(c, s, acts, e, id)
        ensures ChildBuried(Exec(c, s, acts), e, id)
      {
        ChildRun(c, s, acts, e, id);
      }
    } else {
      var w :| LiveChild(s, w, e);
      OrphanWrite(c, s, w, e, id);
    }
  }

  lemma OrphanWrite(c: Config, s: State, w: nat, e: Entity, id: nat)
    requires ChildBuried(s, e, id) && LiveChild(s, w, e)
    ensures CanRun(c, s, [Write(w)]) && TraceStaysDeleted(c, s, [Write(w)], e, id)
    ensures !ChildBuried(Exec(c, s, [Write(w)]), e, id)
  {
    var t := Apply(c, s, Write(w));
    Cons(c, s, Write(w), []);
    assert [Write(w)] + [] == [Write(w)];
    assert [Write(w)][1..] == [];
    assert t.raw == s.raw && TraceDeleted(t, e, id);
    assert TraceStaysDeleted(c, t, [], e, id);
  }

  /* ---------- the orphan ---------- */

  /** A child is rebuilt; between its guard and its write its trace is deleted; then it writes. */
  function OrphanScript(e: Entity, parent: Entity, now: int): seq<Action> {
    (RequestScript(Handle(e, 0), 0, 0) + StartScript(Job(e, 0, 0, now), 0)) + (GuardScript(0) + DeleteThenWrite(parent))
  }

  function Tombstone(parent: Entity, now: int): Stored {
    Stored(parent, RawEvent(now, parent.id, true, 0), Deletion, now)
  }

  lemma DeleteTrace(c: Config, s: State, parent: Entity)
    requires s.erases == {} && Longest(s, parent) == 0
    requires forall i :: 0 <= i < |s.raw| ==> s.raw[i].entity != parent
    ensures var acts := [WriteTombstone(parent), EraseRows(Erase(parent, |s.raw| + 1))];
            && CanRun(c, s, acts) && Disciplined(c, s, acts)
            && Exec(c, s, acts) == s.(raw := s.raw + [Tombstone(parent, s.clock)],
                                      projection := s.projection[parent := Snapshot(|s.raw| + 1, true)],
                                      newest := Longer(s.newest, parent, |s.raw| + 1))
  {
    var x := Erase(parent, |s.raw| + 1);
    var s1 := Apply(c, s, WriteTombstone(parent));
    var s2 := Apply(c, s1, EraseRows(x));
    assert s1.erases == {x} && s2.erases == {};
    Cons(c, s1, EraseRows(x), []);
    Cons(c, s, WriteTombstone(parent), [EraseRows(x)] + []);
    assert [WriteTombstone(parent), EraseRows(x)] == [WriteTombstone(parent)] + ([EraseRows(x)] + []);
  }

  lemma WriteAndFinish(c: Config, s: State, w: nat)
    requires c == Config(false, false, {})
    requires At(s, w, ParentChecked) && Longest(s, s.runs[w].job.entity) <= s.runs[w].n <= |s.raw|
    ensures var acts := WriteScript(w) + [MarkSeen(w, true)];
            && CanRun(c, s, acts) && Disciplined(c, s, acts)
            && Exec(c, s, acts) ==
               s.(projection := s.projection[s.runs[w].job.entity := Snapshot(s.runs[w].n, s.runs[w].deleted)],
                  newest := Longer(s.newest, s.runs[w].job.entity, s.runs[w].n), runs := s.runs - {w})
  {
    WriteScriptRuns(c, s, w);
    var t := AfterWrite(c, s, w);
    Cons(c, t, MarkSeen(w, true), []);
    assert [MarkSeen(w, true)] + [] == [MarkSeen(w, true)];
    Chain(c, s, WriteScript(w), t, [MarkSeen(w, true)]);
    assert t.runs - {w} == s.runs - {w};
  }

  /** One live row of the child, nothing of the parent: the guards find nothing. */
  lemma GuardsPass(s: State, row: Stored)
    requires s.raw == [row] && !row.event.tombstone && s.projectTombstones == {}
    requires ParentTrace(row.entity).Some?
    ensures !GuardsSay(s, row.entity, 1)
  {
    assert [row][..1] == [row];
    HistoryRows([row], row.entity);
    DeletedMeaning(History([row], row.entity));
    HistoryRows([row], ParentTrace(row.entity).value);
    DeletedMeaning(History([row], ParentTrace(row.entity).value));
  }

  function DeleteThenWrite(parent: Entity): seq<Action> {
    [WriteTombstone(parent), EraseRows(Erase(parent, 2))] + (WriteScript(0) + [MarkSeen(0, true)])
  }

  /** Deletion and write, from a child that is past its guards. */
  lemma OrphanWrites(c: Config, s: State, e: Entity, row: Stored)
    requires c == Config(false, false, {}) && ParentTrace(e).Some?
    requires s.raw == [row] && row.entity == e && s.erases == {} && s.projection == map[] && s.newest == map[]
    requires At(s, 0, ParentChecked) && s.runs[0].job.entity == e && s.runs[0].n == 1 && !s.runs[0].deleted
    ensures var parent := ParentTrace(e).value;
            && CanRun(c, s, DeleteThenWrite(parent)) && Disciplined(c, s, DeleteThenWrite(parent))
            && Exec(c, s, DeleteThenWrite(parent))
               == s.(raw := [row, Tombstone(parent, s.clock)],
                     projection := map[parent := Snapshot(2, true), e := Snapshot(1, false)],
                     newest := map[parent := 2, e := 1], runs := s.runs - {0})
  {
    var parent := ParentTrace(e).value;
    DeleteTrace(c, s, parent);
    var s2 := s.(raw := [row, Tombstone(parent, s.clock)], projection := map[parent := Snapshot(2, true)],
                 newest := map[parent := 2]);
    assert [row] + [Tombstone(parent, s.clock)] == [row, Tombstone(parent, s.clock)];
    assert map[][parent := Snapshot(2, true)] == map[parent := Snapshot(2, true)];
    WriteAndFinish(c, s2, 0);
    Chain(c, s, [WriteTombstone(parent), EraseRows(Erase(parent, 2))], s2, WriteScript(0) + [MarkSeen(0, true)]);
  }

  /** Guards, deletion and write, from a child that has read its history. */
  lemma OrphanTail(c: Config, s: State, e: Entity, row: Stored)
    requires c == Config(false, false, {}) && ParentTrace(e).Some?
    requires s.raw == [row] && row.entity == e && !row.event.tombstone
    requires s.projectTombstones == {} && s.erases == {} && s.projection == map[] && s.newest == map[]
    requires At(s, 0, HistoryRead) && s.runs[0].job.entity == e && s.runs[0].n == 1
    ensures var parent := ParentTrace(e).value;
            var acts := GuardScript(0) + DeleteThenWrite(parent);
            && CanRun(c, s, acts) && Disciplined(c, s, acts)
            && Exec(c, s, acts) == s.(raw := [row, Tombstone(parent, s.clock)],
                                      projection := map[parent := Snapshot(2, true), e := Snapshot(1, false)],
                                      newest := map[parent := 2, e := 1], runs := s.runs - {0})
  {
    GuardsPass(s, row);
    GuardRuns(c, s, 0);
    var s1 := Advance(s, 0, s.runs[0].(phase := ParentChecked, deleted := false));
    OrphanWrites(c, s1, e, row);
    assert s1.runs - {0} == s.runs - {0};
    Chain(c, s, GuardScript(0), s1, DeleteThenWrite(ParentTrace(e).value));
  }

  /** The orphan: a disciplined run that ends with nothing in flight, the trace deleted and its child live. */
  lemma OrphanStaysLive(e: Entity, id: nat, now: int)
    requires ChildOf(e, id)
    ensures var c, acts := Config(false, false, {}), OrphanScript(e, TraceOf(e.project, id), now);
            && CanRun(c, Init(now), acts) && Disciplined(c, Init(now), acts)
            && var s := Exec(c, Init(now), acts);
            && Quiescent(s) && TraceDeleted(s, e, id) && e in s.projection && !s.projection[e].deleted
  {
    var c, s, parent := Config(false, false, {}), Init(now), TraceOf(e.project, id);
    var first := RequestScript(Handle(e, 0), 0, 0) + StartScript(Job(e, 0, 0, now), 0);
    var row := RequestRow(Handle(e, 0), 0, now);
    RequestThenStart(c, s, e, 0);
    var s1 := Exec(c, s, first);
    assert s1.raw == [row];
    OrphanTail(c, s1, e, row);
    var tail := GuardScript(0) + DeleteThenWrite(parent);
    Chain(c, s, first, s1, tail);
    var t := Exec(c, s1, tail);
    assert t.runs == map[];
    assert [row] + [Tombstone(parent, now)] == [row, Tombstone(parent, now)];
    TombstoneDeletes([row], Tombstone(parent, now));
  }
}
