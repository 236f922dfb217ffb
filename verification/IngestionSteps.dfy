/** What single steps of the ingestion protocol do to the stores, in terms of their columns and keys
    (worker/src/queues/ingestionQueue.ts:52-237, packages/shared/src/server/ingestion/processEventBatch.ts). */
module IngestionSteps {
  import opened Wrappers
  import opened RawEvents
  import opened Ingestion
  import opened IngestionInvariant
  import opened IngestionTheorems

  /* ---------- the skips ---------- */

  /** The seen key is that of project, entity, event type and batch; a job whose key is set ends there. */
  lemma SeenCheck(c: Config, s: State, w: nat)
    requires Enabled(c, s, CheckSeen(w))
    ensures var t, j := Apply(c, s, CheckSeen(w)), s.runs[w].job;
            && t == s.(runs := t.runs) && t.runs - {w} == s.runs - {w}
            && (w in t.runs <==> !(c.seenCache && SeenKey(j.entity, j.typ, j.batch) in s.seen))
            && (w in t.runs ==> t.runs[w] == s.runs[w].(phase := Unseen))
  {
    var t := Apply(c, s, CheckSeen(w));
    assert t.runs - {w} == s.runs - {w};
  }

  /** Only the primary queue redirects, and only the jobs of the configured projects: to the secondary queue. */
  lemma Redirection(c: Config, s: State, w: nat)
    requires At(s, w, Unseen)
    ensures var r := s.runs[w];
            && (Enabled(c, s, Redirect(w)) <==> !r.secondary && r.job.entity.project in c.redirected)
            && (Enabled(c, s, CheckWatermark(w)) <==> !Enabled(c, s, Redirect(w)))
            && (Enabled(c, s, Redirect(w)) ==>
                  Apply(c, s, Redirect(w)) ==
                  s.(queue := s.queue + multiset{Queued(r.job, true)}, runs := s.runs - {w}))
  {
  }

  /** The watermark is that of project, entity and event type; a job it has reached or passed ends there. */
  lemma WatermarkCheck(c: Config, s: State, w: nat)
    requires Enabled(c, s, CheckWatermark(w))
    ensures var t, j := Apply(c, s, CheckWatermark(w)), s.runs[w].job;
            var key := WatermarkKey(j.entity, j.typ);
            && t == s.(runs := t.runs) && t.runs - {w} == s.runs - {w}
            && (w in t.runs <==> !(c.coalesce && key in s.watermark && s.watermark[key] >= j.timestamp))
            && (w in t.runs ==> t.runs[w] == s.runs[w].(phase := Uncovered))
  {
    var t := Apply(c, s, CheckWatermark(w));
    assert t.runs - {w} == s.runs - {w};
  }

  /* ---------- the rebuild ---------- */

  /** A run goes on exactly when its entity has a row that is no tombstone; it has then read all rows there are. */
  lemma HistoryReadMeaning(c: Config, s: State, w: nat)
    requires Enabled(c, s, ReadHistory(w))
    ensures var t, r := Apply(c, s, ReadHistory(w)), s.runs[w];
            && t == s.(runs := t.runs) && t.runs - {w} == s.runs - {w}
            && (w in t.runs <==>
                  exists i :: 0 <= i < |s.raw| && s.raw[i].entity == r.job.entity && !s.raw[i].event.tombstone)
            && (w in t.runs ==> t.runs[w] == r.(phase := HistoryRead, n := |s.raw|, readAt := s.clock))
  {
    var t, e := Apply(c, s, ReadHistory(w)), s.runs[w].job.entity;
    assert t.runs - {w} == s.runs - {w};
    if i :| 0 <= i < |s.raw| && s.raw[i].entity == e && !s.raw[i].event.tombstone { LiveRowSeen(s.raw, i); }
    var live := LiveEvents(History(s.raw, e));
    if live != [] {
      LiveRows(History(s.raw, e));
      HistoryRows(s.raw, e);
      assert live[0] in History(s.raw, e);
    }
  }

  /** The project guard: deleted if the history read says so, or the project has a tombstone. */
  lemma ProjectGuard(c: Config, s: State, w: nat)
    requires Enabled(c, s, GuardProject(w)) && s.runs[w].n <= |s.raw|
    ensures var t, r := Apply(c, s, GuardProject(w)), s.runs[w];
            && t == s.(runs := t.runs) && t.runs - {w} == s.runs - {w} && w in t.runs
            && t.runs[w] == r.(phase := ProjectChecked, deleted := t.runs[w].deleted)
            && (t.runs[w].deleted <==>
                  Deleted(History(s.raw[..r.n], r.job.entity)) || r.job.entity.project in s.projectTombstones)
  {
    var t := Apply(c, s, GuardProject(w));
    assert t.runs - {w} == s.runs - {w};
  }

  /** The parent guard: an observation or a score that names a trace is also deleted if that trace is; for a trace, and
      without a trace id, it changes nothing. */
  lemma ParentGuard(c: Config, s: State, w: nat)
    requires Enabled(c, s, GuardParent(w))
    ensures var t, r := Apply(c, s, GuardParent(w)), s.runs[w];
            var e, d := r.job.entity, t.runs[w].deleted;
            && t == s.(runs := t.runs) && t.runs - {w} == s.runs - {w}
            && t.runs[w] == r.(phase := ParentChecked, deleted := d)
            && (e.kind.Trace? || e.traceId.None? ==> d == r.deleted)
            && (forall id :: (e.kind.Observation? || e.kind.Score?) && e.traceId == Some(id) ==>
                  (d <==> r.deleted || Deleted(History(s.raw, Entity(e.project, Trace, id, None)))))
  {
    var t := Apply(c, s, GuardParent(w));
    assert t.runs - {w} == s.runs - {w};
  }

  /** As long as a trace has no tombstone, the parent guard changes nothing for its children. */
  lemma ParentWithoutTombstone(c: Config, s: State, w: nat, id: nat)
    requires Enabled(c, s, GuardParent(w)) && s.runs[w].job.entity.traceId == Some(id)
    requires forall i :: 0 <= i < |s.raw| && s.raw[i].entity == Entity(s.runs[w].job.entity.project, Trace, id, None)
                         ==> !s.raw[i].event.tombstone
    ensures Apply(c, s, GuardParent(w)).runs[w].deleted == s.runs[w].deleted
  {
    var trace := Entity(s.runs[w].job.entity.project, Trace, id, None);
    ParentGuard(c, s, w);
    HistoryRows(s.raw, trace);
    DeletedMeaning(History(s.raw, trace));
  }

  /** The write stores the rebuild of the rows read under the flag of the guards. */
  lemma WriteMeaning(c: Config, s: State, w: nat)
    requires Enabled(c, s, Write(w))
    ensures var t, r := Apply(c, s, Write(w)), s.runs[w];
            && t == s.(projection := t.projection, newest := t.newest, runs := s.runs[w := r.(phase := Accepted)])
            && t.projection == s.projection[r.job.entity := Snapshot(r.n, r.deleted)]
  {
  }

  /** A published watermark is the latest stamp of the live events read, under the key of project, entity and type. */
  lemma PublishMeaning(c: Config, s: State, w: nat, stored: bool)
    requires Enabled(c, s, Publish(w, stored)) && s.runs[w].n <= |s.raw|
    requires LiveEvents(History(s.raw[..s.runs[w].n], s.runs[w].job.entity)) != []
    ensures var t, r := Apply(c, s, Publish(w, stored)), s.runs[w];
            var key := WatermarkKey(r.job.entity, r.job.typ);
            var live := LiveEvents(History(s.raw[..r.n], r.job.entity));
            && t == s.(watermark := t.watermark, runs := s.runs[w := r.(phase := Published)])
            && (!(c.coalesce && stored) ==> t.watermark == s.watermark)
            && (c.coalesce && stored ==>
                  && key in t.watermark && t.watermark == s.watermark[key := t.watermark[key]]
                  && (forall e :: e in live ==> e.ingestedAt <= t.watermark[key])
                  && exists e :: e in live && e.ingestedAt == t.watermark[key])
  {
    ParsedStamps(History(s.raw[..s.runs[w].n], s.runs[w].job.entity), 0);
  }

  /** The seen key is set last, and the worker is free. */
  lemma MarkSeenMeaning(c: Config, s: State, w: nat, stored: bool)
    requires Enabled(c, s, MarkSeen(w, stored))
    ensures var t, j := Apply(c, s, MarkSeen(w, stored)), s.runs[w].job;
            && t == s.(seen := t.seen, runs := s.runs - {w})
            && t.seen == s.seen + if c.seenCache && stored then {SeenKey(j.entity, j.typ, j.batch)} else {}
  {
  }

  /** A job that fails goes back into the queue it came from. */
  lemma FailMeaning(c: Config, s: State, w: nat)
    requires Enabled(c, s, Fail(w))
    ensures Apply(c, s, Fail(w)) ==
            s.(queue := s.queue + multiset{Queued(s.runs[w].job, s.runs[w].secondary)}, runs := s.runs - {w})
  {
  }

  /* ---------- requests and deletions ---------- */

  /** The raw rows of a request: stamped one millisecond apart from the moment of stamping on, under the ids and with
      the bodies of the events, visible when they are written; an attempt without an answer can be repeated. */
  lemma RequestRowsMeaning(c: Config, s: State, h: Handle, typ: nat, bodies: seq<(nat, nat)>, ms: nat, acked: bool)
    requires h !in s.started && h !in s.appends && bodies != []
    ensures var s2 := Apply(c, Apply(c, s, StampEvents(h, typ, bodies)), Tick(ms));
            var t := Apply(c, s2, WriteRaw(h, acked));
            && |t.raw| == |s.raw| + |bodies| && s.raw <= t.raw
            && (forall i :: 0 <= i < |bodies| ==>
                  t.raw[|s.raw| + i] == Stored(h.entity, RawEvent(s.clock + i, bodies[i].0, false, bodies[i].1),
                                               Batch(h.batch), s.clock + ms))
            && (Enabled(c, t, WriteRaw(h, acked)) <==> !acked) && (Enabled(c, t, Enqueue(h)) <==> acked)
  {
  }

  /** The job of a request: for its entity, type and batch, stamped when it is enqueued, on the primary queue. */
  lemma EnqueueMeaning(c: Config, s: State, h: Handle)
    requires Enabled(c, s, Enqueue(h))
    ensures Apply(c, s, Enqueue(h)) ==
            s.(queue := s.queue + multiset{Queued(Job(h.entity, s.appends[h].typ, h.batch, s.clock), false)},
               appends := s.appends - {h})
  {
  }

  /** Deleting an entity: a tombstone stamped now, and later a deleted projection of all rows up to it. */
  lemma DeletionMeaning(c: Config, s: State, e: Entity)
    ensures var t := Apply(c, s, WriteTombstone(e));
            var x := Erase(e, |s.raw| + 1);
            && t == s.(raw := t.raw, erases := s.erases + {x})
            && t.raw == s.raw + [Stored(e, RawEvent(s.clock, e.id, true, 0), Deletion, s.clock)]
            && Enabled(c, t, EraseRows(x))
            && var u := Apply(c, t, EraseRows(x));
            && u == t.(erases := t.erases - {x}, projection := u.projection, newest := u.newest)
            && u.projection == s.projection[e := Snapshot(|s.raw| + 1, true)]
  {
  }

  /** Deleting a project: every projection of it is marked deleted, and no other projection changes. */
  lemma EraseProjectMeaning(c: Config, s: State, p: nat)
    requires Enabled(c, s, EraseProject(p))
    ensures var t := Apply(c, s, EraseProject(p));
            && t == s.(projection := t.projection) && t.projection.Keys == s.projection.Keys
            && forall e :: e in s.projection ==>
                 && t.projection[e].n == s.projection[e].n
                 && t.projection[e].deleted == (s.projection[e].deleted || e.project == p)
  {
    assert Apply(c, s, EraseProject(p)).projection.Keys == s.projection.Keys;
  }
}
