/** Project deletion: once the tombstone is written and the projections are erased, nothing brings a
    projection of the project back (worker/src/queues/ingestionQueue.ts:168-205). */
module ProjectDeletion {
  import Collections
  import opened Wrappers
  import opened RawEvents
  import opened Ingestion
  import opened IngestionInvariant
  import opened IngestionTheorems
  import opened IngestionLimits

  /** The project is tombstoned and none of its projections is live. */
  ghost predicate Buried(s: State, p: nat) {
    && p in s.projectTombstones
    && (forall e :: e in s.projection && e.project == p ==> s.projection[e].deleted)
  }

  /** Run `w` has passed the project guard and is about to write a live projection of `p`. */
  predicate LiveRebuild(s: State, w: nat, p: nat) {
    && w in s.runs && s.runs[w].job.entity.project == p && s.runs[w].phase in {ProjectChecked, ParentChecked}
    && !s.runs[w].deleted
  }

  ghost predicate NoLiveRebuild(s: State, p: nat) { forall w :: !LiveRebuild(s, w, p) }

  ghost predicate StaysBuried(c: Config, s: State, p: nat) {
    forall acts :: CanRun(c, s, acts) ==> Buried(Exec(c, s, acts), p)
  }

  /** Deleting a project buries it: with its tombstone in place, erasing marks every projection of it deleted. */
  lemma DeletionBuries(c: Config, s: State, p: nat)
    ensures var t := Apply(c, s, WriteProjectTombstone(p));
            && t == s.(projectTombstones := s.projectTombstones + {p})
            && Enabled(c, t, EraseProject(p))
            && Buried(Apply(c, t, EraseProject(p)), p)
            && forall e :: e in s.projection && e.project != p ==>
                 e in Apply(c, t, EraseProject(p)).projection
                 && Apply(c, t, EraseProject(p)).projection[e] == s.projection[e]
  {
  }

  lemma BuriedStep(c: Config, s: State, a: Action, p: nat)
    requires Buried(s, p) && NoLiveRebuild(s, p) && Enabled(c, s, a)
    ensures Buried(Apply(c, s, a), p) && NoLiveRebuild(Apply(c, s, a), p)
  {
    ProjectionStep(c, s, a, p);
    forall w ensures !LiveRebuild(Apply(c, s, a), w, p) { RebuildStep(c, s, a, w, p); }
  }

  lemma ProjectionStep(c: Config, s: State, a: Action, p: nat)
    requires Buried(s, p) && NoLiveRebuild(s, p) && Enabled(c, s, a)
    ensures Buried(Apply(c, s, a), p)
  {
    match a
    case Write(w) => assert !LiveRebuild(s, w, p);
    case EraseRows(_) =>
    case EraseProject(_) =>
    case _ => if ByWorker(a) { WorkersKeepRows(c, s, a); } else { OthersKeepSnapshots(c, s, a); }
  }

  predicate Guards(a: Action, w: nat) { a == GuardProject(w) || a == GuardParent(w) }

  /** No own step but a guard read takes the run into the guarded phases. */
  lemma OwnStep(c: Config, s: State, a: Action, w: nat)
    requires Enabled(c, s, a) && ByWorker(a) && WorkerOf(a) == w && !Guards(a, w)
    ensures var t := Apply(c, s, a); w in t.runs ==> t.runs[w].phase !in {ProjectChecked, ParentChecked}
  {
  }

  /** Only the guard reads open a rebuild, and both see the tombstone. */
  lemma RebuildStep(c: Config, s: State, a: Action, w: nat, p: nat)
    requires p in s.projectTombstones && !LiveRebuild(s, w, p) && Enabled(c, s, a)
    ensures !LiveRebuild(Apply(c, s, a), w, p)
  {
    if !ByWorker(a) {
      OutsideSteps(c, s, a);
    } else if WorkerOf(a) != w {
      OthersKeepRun(c, s, a, w);
    } else if !Guards(a, w) {
      OwnStep(c, s, a, w);
    }
  }

  lemma {:induction false} BuriedRun(c: Config, s: State, acts: seq<Action>, p: nat)
    requires Buried(s, p) && NoLiveRebuild(s, p) && CanRun(c, s, acts)
    ensures Buried(Exec(c, s, acts), p)
    decreases |acts|
  {
    if acts != [] {
      BuriedStep(c, s, acts[0], p);
      BuriedRun(c, Apply(c, s, acts[0]), acts[1..], p);
    }
  }

  /* ---------- a rebuild that is past its guards does resurrect ---------- */

  lemma StampBound(raw: seq<Stored>) returns (m: int)
    ensures forall i :: 0 <= i < |raw| ==> raw[i].event.ingestedAt <= m
  {
    m := 0;
    for k := 0 to |raw|
      invariant forall i :: 0 <= i < k ==> raw[i].event.ingestedAt <= m
    {
      if m < raw[k].event.ingestedAt { m := raw[k].event.ingestedAt; }
    }
  }

  /** A new event stamped after every other row of a deleted entity brings it back. */
  lemma Recreates(raw: seq<Stored>, row: Stored)
    requires !row.event.tombstone
    requires forall i :: 0 <= i < |raw| && raw[i].entity == row.entity ==>
               raw[i].event.eventId != row.event.eventId && raw[i].event.ingestedAt < row.event.ingestedAt
    ensures !Deleted(History(raw + [row], row.entity))
  {
    var all := raw + [row];
    var h := History(all, row.entity);
    assert all[|raw|] == row;
    assert row.event in h by { HistoryRows(all, row.entity); }
    var v := FirstCopy(h, row.event);
    var i := RowOf(all, row.entity, v);
    assert i == |raw|;
    forall t | t in h && t.tombstone ensures t.ingestedAt < v.ingestedAt {
      var j := RowOf(all, row.entity, t);
    }
    DeletedMeaning(h);
  }

  lemma FirstCopy(h: seq<RawEvent>, r: RawEvent) returns (v: RawEvent)
    requires r in h && !r.tombstone
    ensures v in LiveEvents(h) && v in h && v.eventId == r.eventId && !v.tombstone
  {
    LiveRows(h);
    var k :| 0 <= k < |LiveEvents(h)| && LiveEvents(h)[k].eventId == r.eventId;
    v := LiveEvents(h)[k];
  }

  lemma RowOf(raw: seq<Stored>, e: Entity, v: RawEvent) returns (i: nat)
    requires v in History(raw, e)
    ensures i < |raw| && raw[i].entity == e && raw[i].event == v
  {
    HistoryRows(raw, e);
    var k :| 0 <= k < |raw| && raw[k].entity == e && raw[k].event == v;
    i := k;
  }

  lemma WriteResurrects(c: Config, s: State, w: nat, p: nat)
    requires At(s, w, ParentChecked) && LiveRebuild(s, w, p)
    ensures CanRun(c, s, [Write(w)]) && !Buried(Exec(c, s, [Write(w)]), p)
  {
    Cons(c, s, Write(w), []);
    assert [Write(w)] + [] == [Write(w)];
    var t := Apply(c, s, Write(w));
    assert s.runs[w].job.entity in t.projection;
  }

  lemma GuardThenWrite(c: Config, s: State, w: nat, p: nat)
    requires At(s, w, ProjectChecked) && LiveRebuild(s, w, p) && !ParentDeleted(s, s.runs[w].job.entity)
    ensures CanRun(c, s, [GuardParent(w), Write(w)]) && !Buried(Exec(c, s, [GuardParent(w), Write(w)]), p)
  {
    WriteResurrects(c, Apply(c, s, GuardParent(w)), w, p);
    Cons(c, s, GuardParent(w), [Write(w)]);
    assert [GuardParent(w)] + [Write(w)] == [GuardParent(w), Write(w)];
  }

  /** A request that brings a deleted trace back: an event stamped after every raw row. */
  lemma RecreateTrace(c: Config, s: State, e: Entity) returns (acts: seq<Action>)
    ensures CanRun(c, s, acts)
    ensures var t := Exec(c, s, acts); t.runs == s.runs && !Deleted(History(t.raw, e))
  {
    var used := set h | h in s.started + s.appends.Keys :: h.batch;
    assert forall h :: h in s.started || h in s.appends ==> h.batch in used;
    var b := Collections.FreshNat(used);
    var ids := set i | 0 <= i < |s.raw| :: s.raw[i].event.eventId;
    assert forall i :: 0 <= i < |s.raw| ==> s.raw[i].event.eventId in ids;
    var id := Collections.FreshNat(ids);
    var m := StampBound(s.raw);
    var ms: nat := if m < s.clock then 0 else m - s.clock + 1;
    var h := Handle(e, b);
    var s1 := Apply(c, s, Tick(ms));
    RequestRuns(c, s1, h, 0, id);
    Recreates(s.raw, RequestRow(h, id, s1.clock));
    Cons(c, s, Tick(ms), RequestScript(h, 0, id));
    acts := [Tick(ms)] + RequestScript(h, 0, id);
  }

  /** Re-creating the parent trace first, when it is deleted at the moment. */
  lemma ParentReturns(c: Config, s: State, w: nat, p: nat) returns (acts: seq<Action>)
    requires At(s, w, ProjectChecked) && LiveRebuild(s, w, p) && ParentDeleted(s, s.runs[w].job.entity)
    ensures CanRun(c, s, acts) && !Buried(Exec(c, s, acts), p)
  {
    var first := RecreateTrace(c, s, ParentTrace(s.runs[w].job.entity).value);
    var s3 := Exec(c, s, first);
    GuardThenWrite(c, s3, w, p);
    Concat(c, s, first, [GuardParent(w), Write(w)]);
    acts := first + [GuardParent(w), Write(w)];
  }

  /** A buried project stays buried in every continuation exactly when no rebuild of it is between its
      guard read and its write with a live result. No timing or ordering assumption is needed. */
  lemma NoResurrectionIff(c: Config, s: State, p: nat)
    requires Buried(s, p)
    ensures NoLiveRebuild(s, p) <==> StaysBuried(c, s, p)
  {
    if NoLiveRebuild(s, p) {
      forall acts | CanRun(c, s, acts) ensures Buried(Exec(c, s, acts), p) { BuriedRun(c, s, acts, p); }
    } else {
      var w :| LiveRebuild(s, w, p);
      var acts: seq<Action>;
      if s.runs[w].phase == ParentChecked {
        WriteResurrects(c, s, w, p);
        acts := [Write(w)];
      } else if ParentDeleted(s, s.runs[w].job.entity) {
        acts := ParentReturns(c, s, w, p);
      } else {
        GuardThenWrite(c, s, w, p);
        acts := [GuardParent(w), Write(w)];
      }
      assert CanRun(c, s, acts) && !Buried(Exec(c, s, acts), p);
    }
  }
}
